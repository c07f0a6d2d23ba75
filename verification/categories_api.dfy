/** `GET` and `POST /api/categories`: a restaurant's categories, each with
    its menu items, and creating a category. */
module CategoriesApi {
  import opened Common
  import opened Store

  /** A category as the listing returns it: with its menu items. */
  datatype CategoryListing = CategoryListing(category: Category, items: seq<MenuItem>)

  function CategoryOrder(c: Category): int { c.sortOrder }

  function ItemOrder(m: MenuItem): int { m.sortOrder }

  /** `include: { menuItems: { orderBy: { sortOrder: 'asc' } } }` for one
      category: the items filed under it, by `sortOrder`. */
  function ItemsOf(items: seq<MenuItem>, categoryId: Id): (r: seq<MenuItem>)
    ensures SortedBy(r, ItemOrder)
    ensures forall m :: m in r <==> m in items && m.categoryId == categoryId
  {
    var mine := Filter(items, (m: MenuItem) => m.categoryId == categoryId);
    FilterComplete(items, (m: MenuItem) => m.categoryId == categoryId);
    SortByMembers(mine, ItemOrder);
    SortBy(mine, ItemOrder)
  }

  /** A category's items are listed once each: every item filed under it
      as often as the table holds it, and nothing else. */
  lemma {:induction false} ItemsOfCounts(items: seq<MenuItem>, categoryId: Id)
    ensures forall m :: multiset(ItemsOf(items, categoryId))[m] == if m.categoryId == categoryId then multiset(items)[m] else 0
  {
    FilterMultiplicity(items, (m: MenuItem) => m.categoryId == categoryId);
  }

  /** Each category of `cats` with its items, in the order of `cats`. */
  function WithItems(cats: seq<Category>, items: seq<MenuItem>): (r: seq<CategoryListing>)
    ensures |r| == |cats|
    ensures forall i :: 0 <= i < |r| ==> r[i] == CategoryListing(cats[i], ItemsOf(items, cats[i].id))
  {
    if |cats| == 0 then [] else [CategoryListing(cats[0], ItemsOf(items, cats[0].id))] + WithItems(cats[1..], items)
  }

  /** `findMany({ where: { userId }, orderBy: { sortOrder: 'asc' } })`: the
      restaurant's categories by `sortOrder`. */
  function OwnCategories(categories: seq<Category>, userId: Id): (r: seq<Category>)
    ensures SortedBy(r, CategoryOrder)
    ensures forall c :: c in r <==> c in categories && c.userId == userId
  {
    var mine := Filter(categories, (c: Category) => c.userId == userId);
    FilterComplete(categories, (c: Category) => c.userId == userId);
    SortByMembers(mine, CategoryOrder);
    SortBy(mine, CategoryOrder)
  }

  /** The restaurant's categories are listed once each: every one of them
      as often as the table holds it, and no other restaurant's. */
  lemma {:induction false} OwnCategoriesCounts(categories: seq<Category>, userId: Id)
    ensures forall c :: multiset(OwnCategories(categories, userId))[c] == if c.userId == userId then multiset(categories)[c] else 0
  {
    FilterMultiplicity(categories, (c: Category) => c.userId == userId);
  }

  /** The `GET` route: 401 without a session user, otherwise 200 with the
      restaurant's categories, each with its items (`ListingScoped`,
      `ListingSorted`, `ListingComplete`). */
  function ListCategories(db: Db, session: Option<Id>): (r: Response<seq<CategoryListing>>)
    ensures session.None? ==> r == Error(401, "Unauthorized")
    ensures session.Some? ==> r.Ok? && r.status == 200
  {
    if session.None? then Unauthorized()
    else Ok(200, WithItems(OwnCategories(db.categories, session.value), db.menuItems))
  }

  /** Only the restaurant's own categories are listed, and under each one
      exactly the items filed under it, in ascending `sortOrder`. */
  lemma {:induction false} ListingScoped(db: Db, userId: Id)
    ensures var listed := ListCategories(db, Some(userId)).body;
      forall i :: 0 <= i < |listed| ==>
        && listed[i].category in db.categories
        && listed[i].category.userId == userId
        && SortedBy(listed[i].items, ItemOrder)
        && (forall m :: m in listed[i].items <==> m in db.menuItems && m.categoryId == listed[i].category.id)
  {
    var cats := OwnCategories(db.categories, userId);
    var listed := ListCategories(db, Some(userId)).body;
    forall i | 0 <= i < |listed|
      ensures listed[i].category in db.categories && listed[i].category.userId == userId
    {
      assert listed[i].category == cats[i];
    }
  }

  /** The categories come in ascending `sortOrder`. */
  lemma {:induction false} ListingSorted(db: Db, userId: Id)
    ensures var listed := ListCategories(db, Some(userId)).body;
      forall i, j :: 0 <= i < j < |listed| ==> listed[i].category.sortOrder <= listed[j].category.sortOrder
  {
    var cats := OwnCategories(db.categories, userId);
    var listed := ListCategories(db, Some(userId)).body;
    forall i, j | 0 <= i < j < |listed|
      ensures listed[i].category.sortOrder <= listed[j].category.sortOrder
    {
      assert listed[i].category == cats[i] && listed[j].category == cats[j];
      assert CategoryOrder(cats[i]) <= CategoryOrder(cats[j]);
    }
  }

  /** Every category of the restaurant is listed. */
  lemma {:induction false} ListingComplete(db: Db, userId: Id)
    ensures var listed := ListCategories(db, Some(userId)).body;
      forall c :: c in db.categories && c.userId == userId ==>
        exists i :: 0 <= i < |listed| && listed[i].category == c
  {
    var cats := OwnCategories(db.categories, userId);
    var listed := ListCategories(db, Some(userId)).body;
    assert listed == WithItems(cats, db.menuItems);
    forall c | c in db.categories && c.userId == userId
      ensures exists i :: 0 <= i < |listed| && listed[i].category == c
    {
      assert c in cats;
      WithItemsCovers(cats, db.menuItems, c);
    }
  }

  /** Pairing with items keeps every category. */
  lemma {:induction false} WithItemsCovers(cats: seq<Category>, items: seq<MenuItem>, c: Category)
    requires c in cats
    ensures exists i :: 0 <= i < |WithItems(cats, items)| && WithItems(cats, items)[i].category == c
  {
    var i :| 0 <= i < |cats| && cats[i] == c;
    assert WithItems(cats, items)[i].category == c;
  }

  /** The JSON body of `POST`. */
  datatype CategoryRequest = CategoryRequest(name: NameFields, sortOrder: Option<int>)

  /** The `POST` route: 401 without a session user, otherwise 201 with the
      new category, owned by the session user, names defaulting to `''`
      and `sortOrder` to 0, appended to the store under the next id. */
  function CreateCategory(db: Db, session: Option<Id>, req: CategoryRequest): (h: Handled<Category>)
    ensures session.None? ==> h == Handled(Error(401, "Unauthorized"), db)
    ensures session.Some? ==>
      && h.response == Ok(201, Category(db.nextId, session.value, FillNames(req.name), OrZero(req.sortOrder)))
      && h.db == db.(categories := db.categories + [h.response.body], nextId := db.nextId + 1)
  {
    if session.None? then Handled(Unauthorized(), db)
    else
      var c := Category(db.nextId, session.value, FillNames(req.name), OrZero(req.sortOrder));
      Handled(Ok(201, c), db.(categories := db.categories + [c], nextId := db.nextId + 1))
  }

  /** A category created by one restaurant shows up in that restaurant's
      listing and in no other's. */
  lemma {:induction false} CreatedCategoryListedForOwnerOnly(db: Db, owner: Id, other: Id, req: CategoryRequest)
    requires owner != other
    ensures var h := CreateCategory(db, Some(owner), req);
      var mine := ListCategories(h.db, Some(owner));
      var theirs := ListCategories(h.db, Some(other));
      && (exists i :: 0 <= i < |mine.body| && mine.body[i].category == h.response.body)
      && (forall i :: 0 <= i < |theirs.body| ==> theirs.body[i].category != h.response.body)
  {
    var h := CreateCategory(db, Some(owner), req);
    assert h.response.body in h.db.categories;
    ListingComplete(h.db, owner);
    ListingScoped(h.db, other);
  }
}
