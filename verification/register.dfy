/** Creating a restaurant account: the request checks, in the order the
    route makes them, then the new user and the seeding of its default
    menu, fifteen tables and one QR code per table.

    The password hash is a parameter (`hash`): bcrypt is not part of this
    model. The columns the route leaves to the database schema (colour,
    currency, admin language) come in as `ColumnDefaults`. */
module Register {
  import opened Common
  import opened Store
  import opened Signup
  import opened DefaultMenu

  /** The JSON body of the sign-up request. */
  datatype RegisterRequest = RegisterRequest(
    email: Option<string>, password: Option<string>, restaurantName: Option<string>, slug: Option<string>)

  /** The columns a new user takes from the schema's defaults. */
  datatype ColumnDefaults = ColumnDefaults(primaryColor: string, currency: string, adminLang: string)

  /** The body of the 201 answer. */
  datatype Registered = Registered(message: string, userId: Id)

  const FieldsRequired: string := "All fields are required"
  const BadSlugFormat: string := "Slug must contain only lowercase letters, numbers, and hyphens"
  const EmailInUse: string := "Email already in use"
  const SlugTaken: string := "Slug already taken"
  const AccountCreated: string := "Account created successfully"

  /** The number of tables every new restaurant starts with. */
  const SeedTableCount: nat := 15

  /** `!email || !password || !restaurantName || !slug` is false. */
  predicate AllFieldsPresent(req: RegisterRequest)
  {
    Truthy(req.email) && Truthy(req.password) && Truthy(req.restaurantName) && Truthy(req.slug)
  }

  /** `/^[a-z0-9-]+$/.test(slug)`. */
  predicate SlugPatternOk(s: string)
  {
    |s| > 0 && AllSlugChars(s)
  }

  /** `findFirst({ where: { OR: [{ email }, { slug }] } })`: the first user,
      in store order, holding the email or the slug. */
  function FindConflict(users: seq<User>, email: string, slug: string): (r: Option<User>)
    ensures r.Some? ==> r.value in users && (r.value.email == email || r.value.slug == slug)
    ensures r.None? <==> forall i :: 0 <= i < |users| ==> users[i].email != email && users[i].slug != slug
  {
    var hits := Filter(users, (u: User) => u.email == email || u.slug == slug);
    FilterComplete(users, (u: User) => u.email == email || u.slug == slug);
    if |hits| == 0 then None else Some(hits[0])
  }

  /** Why the route turns the request down, if it does: the message of
      its 400 answer. */
  function RejectReason(users: seq<User>, req: RegisterRequest): (r: Option<string>)
    ensures !AllFieldsPresent(req) ==> r == Some(FieldsRequired)
    ensures AllFieldsPresent(req) && !SlugPatternOk(req.slug.value) ==> r == Some(BadSlugFormat)
    ensures AllFieldsPresent(req) && SlugPatternOk(req.slug.value) ==>
      (r.None? <==> forall i :: 0 <= i < |users| ==> users[i].email != req.email.value && users[i].slug != req.slug.value)
    ensures r == Some(EmailInUse) ==> exists i :: 0 <= i < |users| && users[i].email == req.email.value
    ensures r == Some(SlugTaken) ==> exists i :: 0 <= i < |users| && users[i].slug == req.slug.value
  {
    if !AllFieldsPresent(req) then Some(FieldsRequired)
    else if !SlugPatternOk(req.slug.value) then Some(BadSlugFormat)
    else
      match FindConflict(users, req.email.value, req.slug.value)
      case None => None
      case Some(u) => Some(if u.email == req.email.value then EmailInUse else SlugTaken)
  }

  /** Which taken value the route reports. When the only users holding the
      slug also hold the email, the email is reported; when nobody holds the
      email, the slug is. */
  lemma {:induction false} ConflictPrecedence(users: seq<User>, req: RegisterRequest)
    requires AllFieldsPresent(req) && SlugPatternOk(req.slug.value)
    ensures (exists i :: 0 <= i < |users| && users[i].email == req.email.value)
         && (forall i :: 0 <= i < |users| && users[i].slug == req.slug.value ==> users[i].email == req.email.value)
         ==> RejectReason(users, req) == Some(EmailInUse)
    ensures (forall i :: 0 <= i < |users| ==> users[i].email != req.email.value)
         && (exists i :: 0 <= i < |users| && users[i].slug == req.slug.value)
         ==> RejectReason(users, req) == Some(SlugTaken)
  {
  }

  /** The email is not always reported first: when one user holds the slug
      and a later user holds the email, the first match is the slug holder
      and the answer is "Slug already taken". */
  lemma EarlierSlugHolderWins()
    ensures var a := User(1, "a@x.com", "h", "A", "thai", None, "", "", "");
      var b := User(2, "b@x.com", "h", "B", "b", None, "", "", "");
      RejectReason([a, b], RegisterRequest(Some("b@x.com"), Some("p"), Some("R"), Some("thai")))
      == Some(SlugTaken)
  {
    var a := User(1, "a@x.com", "h", "A", "thai", None, "", "", "");
    var b := User(2, "b@x.com", "h", "B", "b", None, "", "", "");
    var p := (u: User) => u.email == "b@x.com" || u.slug == "thai";
    assert [a, b] == [a] + [b];
    FilterAppend([a], [b], p);
    assert Filter([a], p) == [a];
    assert AllSlugChars("thai");
  }

  /** The corrected conflict check: the email is looked for among all
      users first, and only then the slug, so the answer no longer depends
      on which conflicting user the store returns first. */
  function RejectReasonEmailFirst(users: seq<User>, req: RegisterRequest): (r: Option<string>)
    ensures !AllFieldsPresent(req) ==> r == Some(FieldsRequired)
    ensures AllFieldsPresent(req) && !SlugPatternOk(req.slug.value) ==> r == Some(BadSlugFormat)
  {
    if !AllFieldsPresent(req) then Some(FieldsRequired)
    else if !SlugPatternOk(req.slug.value) then Some(BadSlugFormat)
    else if exists i :: 0 <= i < |users| && users[i].email == req.email.value then Some(EmailInUse)
    else if exists i :: 0 <= i < |users| && users[i].slug == req.slug.value then Some(SlugTaken)
    else None
  }

  /** Under the corrected check a held email is always the reason given,
      whoever holds the slug; and the corrected check differs from the
      route's only when the email and the slug are held by different users
      and a slug-only holder comes first. */
  lemma {:induction false} EmailAlwaysReportedFirst(users: seq<User>, req: RegisterRequest)
    requires AllFieldsPresent(req) && SlugPatternOk(req.slug.value)
    ensures (exists i :: 0 <= i < |users| && users[i].email == req.email.value)
         ==> RejectReasonEmailFirst(users, req) == Some(EmailInUse)
    ensures (forall i :: 0 <= i < |users| && users[i].slug == req.slug.value ==> users[i].email == req.email.value)
         ==> RejectReasonEmailFirst(users, req) == RejectReason(users, req)
    ensures (forall i :: 0 <= i < |users| ==> users[i].email != req.email.value)
         ==> RejectReasonEmailFirst(users, req) == RejectReason(users, req)
  {
    ConflictPrecedence(users, req);
  }

  /** On the input of `EarlierSlugHolderWins` the corrected check reports
      the email. */
  lemma EmailFirstOnEarlierSlugHolder()
    ensures var a := User(1, "a@x.com", "h", "A", "thai", None, "", "", "");
      var b := User(2, "b@x.com", "h", "B", "b", None, "", "", "");
      RejectReasonEmailFirst([a, b], RegisterRequest(Some("b@x.com"), Some("p"), Some("R"), Some("thai")))
      == Some(EmailInUse)
  {
    var b := User(2, "b@x.com", "h", "B", "b", None, "", "", "");
    assert AllSlugChars("thai");
    assert [User(1, "a@x.com", "h", "A", "thai", None, "", "", ""), b][1] == b;
  }

  /** A slug produced by the sign-up form's normalisation from a non-empty
      input always passes the route's format check. */
  lemma {:induction false} NormalizedSlugAccepted(value: string)
    requires |value| > 0
    ensures SlugPatternOk(NormalizeSlug(value))
  {
  }

  /** So a complete request whose slug came from the form is never turned
      down for its slug format. */
  lemma {:induction false} FormSlugNeverBadFormat(users: seq<User>, req: RegisterRequest, typed: string)
    requires AllFieldsPresent(req) && |typed| > 0 && req.slug == Some(NormalizeSlug(typed))
    ensures RejectReason(users, req) != Some(BadSlugFormat)
  {
    NormalizedSlugAccepted(typed);
  }

  // ---------------------------------------------------------------------
  // Seeding
  // ---------------------------------------------------------------------

  /** The category record a seed category becomes. */
  function NewCategory(c: DefaultCategory, userId: Id, id: Id): Category
  {
    Category(id, userId, c.name, c.sortOrder)
  }

  /** The menu item a seed dish becomes under the created category `cat`,
      its names, descriptions and picture taken from `text` (the seed data
      passes `TextOf`): every seeded item is available. */
  function NewMenuItem(item: DefaultItem, text: Dish -> DishText, userId: Id, cat: Category, id: Id): MenuItem
  {
    var t := text(item.dish);
    MenuItem(id, userId, cat.id, t.name, t.desc, item.price, t.imageUrl, item.hasSpicy, true, item.sortOrder)
  }

  /** A seed dish can be placed when its category was created. */
  predicate Placeable(item: DefaultItem, created: seq<Category>)
  {
    0 <= item.categoryIndex < |created|
  }

  /** The records made from the seed categories, in list order, with
      consecutive ids from `firstId` (`CategoryRecordsShape`). */
  function CategoryRecords(seed: seq<DefaultCategory>, userId: Id, firstId: Id): (r: seq<Category>)
    ensures |r| == |seed|
  {
    if |seed| == 0 then []
    else
      var n := |seed| - 1;
      CategoryRecords(seed[..n], userId, firstId) + [NewCategory(seed[n], userId, firstId + n)]
  }

  /** The records made from the seed dishes, in list order: a dish goes
      under the created category its `categoryIndex` names and takes the
      next free id from `firstId`; a dish whose category was not created is
      skipped and takes no id (`ItemRecordsShape`, `SkippedDishesTakeNoId`). */
  function ItemRecords(seed: seq<DefaultItem>, text: Dish -> DishText, cats: seq<Category>, userId: Id, firstId: Id)
    : (r: seq<MenuItem>)
    ensures |r| <= |seed|
  {
    if |seed| == 0 then []
    else if Placeable(seed[0], cats) then
      [NewMenuItem(seed[0], text, userId, cats[seed[0].categoryIndex], firstId)]
      + ItemRecords(seed[1..], text, cats, userId, firstId + 1)
    else ItemRecords(seed[1..], text, cats, userId, firstId)
  }

  /** Tables 1 to `count` with ids `firstId`, `firstId + 2`, ...: each
      table's QR code takes the id in between (`TableRecordsShape`). */
  function TableRecords(userId: Id, count: nat, firstId: Id): (r: seq<Table>)
    ensures |r| == count
  {
    if count == 0 then []
    else TableRecords(userId, count - 1, firstId) + [Table(firstId + 2 * (count - 1), userId, count, None)]
  }

  /** The QR codes of `TableRecords(userId, count, firstId)`, in the same
      order (`TableRecordsShape`). */
  function QrRecords(baseUrl: string, slug: string, userId: Id, count: nat, firstId: Id): (r: seq<QrCode>)
    ensures |r| == count
  {
    if count == 0 then []
    else
      var tableId := firstId + 2 * (count - 1);
      QrRecords(baseUrl, slug, userId, count - 1, firstId) + [QrCode(tableId + 1, userId, tableId, QrUrl(baseUrl, slug, tableId))]
  }

  /** The i-th new category is made from the i-th seed category and takes
      the i-th id from `firstId`. */
  lemma {:induction false} CategoryRecordsShape(seed: seq<DefaultCategory>, userId: Id, firstId: Id)
    ensures forall i :: 0 <= i < |seed| ==> CategoryRecords(seed, userId, firstId)[i] == NewCategory(seed[i], userId, firstId + i)
    decreases |seed|
  {
    if |seed| > 0 {
      var n := |seed| - 1;
      CategoryRecordsShape(seed[..n], userId, firstId);
    }
  }

  /** When every dish names a created category, none is skipped: the j-th
      new menu item is made from the j-th dish, sits under the category its
      `categoryIndex` names, and takes the j-th id from `firstId`. */
  lemma {:induction false} ItemRecordsShape(
    seed: seq<DefaultItem>, text: Dish -> DishText, cats: seq<Category>, userId: Id, firstId: Id)
    requires IndexesValid(seed, |cats|)
    ensures |ItemRecords(seed, text, cats, userId, firstId)| == |seed|
    ensures forall j :: 0 <= j < |seed| ==>
      ItemRecords(seed, text, cats, userId, firstId)[j]
      == NewMenuItem(seed[j], text, userId, cats[seed[j].categoryIndex], firstId + j)
    decreases |seed|
  {
    if |seed| > 0 {
      assert Placeable(seed[0], cats);
      assert IndexesValid(seed[1..], |cats|);
      ItemRecordsShape(seed[1..], text, cats, userId, firstId + 1);
    }
  }

  /** A skipped dish changes nothing: the records are those of the
      placeable dishes alone. */
  lemma {:induction false} SkippedDishesTakeNoId(
    seed: seq<DefaultItem>, text: Dish -> DishText, cats: seq<Category>, userId: Id, firstId: Id)
    ensures ItemRecords(seed, text, cats, userId, firstId)
         == ItemRecords(Filter(seed, (it: DefaultItem) => Placeable(it, cats)), text, cats, userId, firstId)
    decreases |seed|
  {
    var p := (it: DefaultItem) => Placeable(it, cats);
    if |seed| > 0 {
      var kept := Filter(seed[1..], p);
      if p(seed[0]) {
        SkippedDishesTakeNoId(seed[1..], text, cats, userId, firstId + 1);
        assert ([seed[0]] + kept)[1..] == kept;
      } else {
        SkippedDishesTakeNoId(seed[1..], text, cats, userId, firstId);
      }
    }
  }

  /** The k-th new table is table number k + 1, unnamed, with id
      `firstId + 2k`; the k-th QR code has the next id, belongs to that
      table and points at `baseUrl/menu/slug/tableId`. */
  lemma {:induction false} TableRecordsShape(baseUrl: string, slug: string, userId: Id, count: nat, firstId: Id)
    ensures forall k :: 0 <= k < count ==>
      && TableRecords(userId, count, firstId)[k] == Table(firstId + 2 * k, userId, k + 1, None)
      && QrRecords(baseUrl, slug, userId, count, firstId)[k]
         == QrCode(firstId + 2 * k + 1, userId, firstId + 2 * k, QrUrl(baseUrl, slug, firstId + 2 * k))
    decreases count
  {
    if count > 0 {
      TableRecordsShape(baseUrl, slug, userId, count - 1, firstId);
      var ts, qs := TableRecords(userId, count - 1, firstId), QrRecords(baseUrl, slug, userId, count - 1, firstId);
      assert TableRecords(userId, count, firstId) == ts + [Table(firstId + 2 * (count - 1), userId, count, None)];
      var tableId := firstId + 2 * (count - 1);
      assert QrRecords(baseUrl, slug, userId, count, firstId) == qs + [QrCode(tableId + 1, userId, tableId, QrUrl(baseUrl, slug, tableId))];
    }
  }

  /** What the seeding writes, record by record: one category per seed
      category, in list order, owned by the new user; one available menu
      item per seed dish, under the created category its `categoryIndex`
      names; tables numbered 1 to 15, each with one QR code of the same
      owner that points at that table's menu address. */
  lemma {:induction false} SeedRecordsDescribed(
    seedCats: seq<DefaultCategory>, seedItems: seq<DefaultItem>, text: Dish -> DishText,
    uid: Id, baseUrl: string, slug: string)
    requires IndexesValid(seedItems, |seedCats|)
    ensures var cats := CategoryRecords(seedCats, uid, uid + 1);
      && |cats| == |seedCats|
      && forall i :: 0 <= i < |cats| ==>
           cats[i].userId == uid && cats[i].name == seedCats[i].name && cats[i].sortOrder == seedCats[i].sortOrder
    ensures var cats := CategoryRecords(seedCats, uid, uid + 1);
      var items := ItemRecords(seedItems, text, cats, uid, uid + 1 + |seedCats|);
      && |items| == |seedItems|
      && forall j :: 0 <= j < |items| ==>
           && items[j].userId == uid && items[j].available
           && items[j].categoryId == cats[seedItems[j].categoryIndex].id
           && items[j].price == seedItems[j].price && items[j].sortOrder == seedItems[j].sortOrder
    ensures var from := uid + 1 + |seedCats| + |seedItems|;
      var tables := TableRecords(uid, SeedTableCount, from);
      var codes := QrRecords(baseUrl, slug, uid, SeedTableCount, from);
      && |tables| == 15 && |codes| == 15
      && forall k :: 0 <= k < 15 ==>
           && tables[k].tableNumber == k + 1 && tables[k].userId == uid
           && codes[k].tableId == tables[k].id && codes[k].userId == uid
           && codes[k].qrUrl == QrUrl(baseUrl, slug, tables[k].id)
  {
    var cats := CategoryRecords(seedCats, uid, uid + 1);
    CategoryRecordsShape(seedCats, uid, uid + 1);
    ItemRecordsShape(seedItems, text, cats, uid, uid + 1 + |seedCats|);
    TableRecordsShape(baseUrl, slug, uid, SeedTableCount, uid + 1 + |seedCats| + |seedItems|);
  }

  /** With the default menu: six categories numbered 1 to 6, and all
      thirty dishes seeded, none skipped. */
  lemma {:induction false} DefaultSeedComplete(uid: Id)
    ensures var cats := CategoryRecords(DefaultCategories, uid, uid + 1);
      && |cats| == 6
      && (forall i :: 0 <= i < 6 ==> cats[i].sortOrder == i + 1)
      && |ItemRecords(DefaultItems, TextOf, cats, uid, uid + 7)| == 30
  {
    DefaultCategoriesNumbered();
    DefaultItemsIndexesValid();
    var cats := CategoryRecords(DefaultCategories, uid, uid + 1);
    CategoryRecordsShape(DefaultCategories, uid, uid + 1);
    ItemRecordsShape(DefaultItems, TextOf, cats, uid, uid + 7);
  }

  /** The seed categories, created one by one in list order. */
  method SeedCategories(db: Db, userId: Id, seed: seq<DefaultCategory>) returns (db': Db, created: seq<Category>)
    ensures created == CategoryRecords(seed, userId, db.nextId)
    ensures db' == db.(categories := db.categories + created, nextId := db.nextId + |seed|)
  {
    created := [];
    var i := 0;
    while i < |seed|
      invariant 0 <= i <= |seed|
      invariant created == CategoryRecords(seed[..i], userId, db.nextId)
    {
      assert seed[..i + 1][..i] == seed[..i];
      created := created + [NewCategory(seed[i], userId, db.nextId + i)];
      i := i + 1;
    }
    assert seed[..i] == seed;
    db' := db.(categories := db.categories + created, nextId := db.nextId + |seed|);
  }

  /** The seed dishes, each created under the category at its
      `categoryIndex` among those just created; a dish whose category was
      not created is skipped. */
  method SeedItems(db: Db, userId: Id, seed: seq<DefaultItem>, text: Dish -> DishText, created: seq<Category>)
    returns (db': Db, added: seq<MenuItem>)
    ensures added == ItemRecords(seed, text, created, userId, db.nextId)
    ensures db' == db.(menuItems := db.menuItems + added, nextId := db.nextId + |added|)
  {
    added := [];
    var i := 0;
    while i < |seed|
      invariant 0 <= i <= |seed|
      invariant added + ItemRecords(seed[i..], text, created, userId, db.nextId + |added|)
             == ItemRecords(seed, text, created, userId, db.nextId)
    {
      assert seed[i..][1..] == seed[i + 1..];
      var ci := seed[i].categoryIndex;
      if 0 <= ci < |created| {
        added := added + [NewMenuItem(seed[i], text, userId, created[ci], db.nextId + |added|)];
      }
      i := i + 1;
    }
    db' := db.(menuItems := db.menuItems + added, nextId := db.nextId + |added|);
  }

  /** Tables 1 to `count`, each created together with its QR code. */
  method SeedTables(db: Db, userId: Id, slug: string, baseUrl: string, count: nat)
    returns (db': Db, tables: seq<Table>, codes: seq<QrCode>)
    ensures tables == TableRecords(userId, count, db.nextId)
    ensures codes == QrRecords(baseUrl, slug, userId, count, db.nextId)
    ensures db' == db.(tables := db.tables + tables, qrCodes := db.qrCodes + codes, nextId := db.nextId + 2 * count)
  {
    tables, codes := [], [];
    var i := 1;
    while i <= count
      invariant 1 <= i <= count + 1
      invariant tables == TableRecords(userId, i - 1, db.nextId)
      invariant codes == QrRecords(baseUrl, slug, userId, i - 1, db.nextId)
    {
      var t := Table(db.nextId + 2 * (i - 1), userId, i, None);
      tables := tables + [t];
      codes := codes + [QrCode(t.id + 1, userId, t.id, QrUrl(baseUrl, slug, t.id))];
      i := i + 1;
    }
    db' := db.(tables := db.tables + tables, qrCodes := db.qrCodes + codes, nextId := db.nextId + 2 * count);
  }

  /** The user record created for an accepted request. */
  function NewUser(req: RegisterRequest, id: Id, hash: string -> string, defaults: ColumnDefaults): User
    requires AllFieldsPresent(req)
  {
    User(id, req.email.value, hash(req.password.value), req.restaurantName.value, req.slug.value,
         None, defaults.primaryColor, defaults.currency, defaults.adminLang)
  }

  /** `POST /api/register`. A rejected request answers 400 with the reason
      and leaves the store as it was; an accepted one answers 201 with the
      new user's id and leaves the store seeded with the default menu (see
      `CreateAccount` for the records written). */
  method Register(db: Db, req: RegisterRequest, env: Option<string>, hash: string -> string, defaults: ColumnDefaults)
    returns (h: Handled<Registered>)
    ensures RejectReason(db.users, req).Some? ==> h == Handled(Error(400, RejectReason(db.users, req).value), db)
    ensures RejectReason(db.users, req).None? ==>
      var uid := db.nextId;
      var cats := CategoryRecords(DefaultCategories, uid, uid + 1);
      var itemsFrom := uid + 1 + |DefaultCategories|;
      var tablesFrom := itemsFrom + |DefaultItems|;
      && AllFieldsPresent(req)
      && h.response == Ok(201, Registered(AccountCreated, uid))
      && h.db.users == db.users + [NewUser(req, uid, hash, defaults)]
      && h.db.categories == db.categories + cats
      && h.db.menuItems == db.menuItems + ItemRecords(DefaultItems, TextOf, cats, uid, itemsFrom)
      && h.db.tables == db.tables + TableRecords(uid, SeedTableCount, tablesFrom)
      && h.db.qrCodes == db.qrCodes + QrRecords(BaseUrl(env), req.slug.value, uid, SeedTableCount, tablesFrom)
      && h.db.nextId == tablesFrom + 2 * SeedTableCount
  {
    var reason := RejectReason(db.users, req);
    if reason.Some? {
      return Handled(Error(400, reason.value), db);
    }
    DefaultItemsIndexesValid();
    var d := CreateAccount(db, req, env, hash, defaults, DefaultCategories, DefaultItems, TextOf);
    h := Handled(Ok(201, Registered(AccountCreated, db.nextId)), d);
  }

  /** The writes of an accepted request: the user, then the seed data, in
      the order the route makes them, each taking the next ids. Nothing
      stored before changes. */
  method CreateAccount(
    db: Db, req: RegisterRequest, env: Option<string>, hash: string -> string, defaults: ColumnDefaults,
    seedCats: seq<DefaultCategory>, seedItems: seq<DefaultItem>, text: Dish -> DishText)
    returns (d: Db)
    requires AllFieldsPresent(req) && IndexesValid(seedItems, |seedCats|)
    ensures var uid := db.nextId;
      var cats := CategoryRecords(seedCats, uid, uid + 1);
      var itemsFrom := uid + 1 + |seedCats|;
      var tablesFrom := itemsFrom + |seedItems|;
      && d.users == db.users + [NewUser(req, uid, hash, defaults)]
      && d.categories == db.categories + cats
      && d.menuItems == db.menuItems + ItemRecords(seedItems, text, cats, uid, itemsFrom)
      && d.tables == db.tables + TableRecords(uid, SeedTableCount, tablesFrom)
      && d.qrCodes == db.qrCodes + QrRecords(BaseUrl(env), req.slug.value, uid, SeedTableCount, tablesFrom)
      && d.nextId == tablesFrom + 2 * SeedTableCount
  {
    var uid := db.nextId;
    var withUser := db.(users := db.users + [NewUser(req, uid, hash, defaults)], nextId := uid + 1);
    var withCats, created := SeedCategories(withUser, uid, seedCats);
    var itemsFrom := uid + 1 + |seedCats|;
    assert withCats.nextId == itemsFrom;
    var withItems, added := SeedItems(withCats, uid, seedItems, text, created);
    ItemRecordsShape(seedItems, text, created, uid, itemsFrom);
    assert withItems.nextId == itemsFrom + |seedItems|;
    var tables, codes;
    d, tables, codes := SeedTables(withItems, uid, req.slug.value, BaseUrl(env), SeedTableCount);
  }
}
