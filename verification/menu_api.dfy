/** `POST /api/menu`: creating a menu item. The request must come from a
    signed-in restaurant, name a category, and that category must belong
    to the same restaurant; every other field falls back to a default.

    `price` arrives already through `parseFloat`: `None` stands for `NaN`,
    and prices are whole amounts of the currency (the fraction of a
    floating-point price is not modelled). */
module MenuApi {
  import opened Common
  import opened Store

  /** The JSON body of the request. */
  datatype MenuItemRequest = MenuItemRequest(
    categoryId: Option<Id>, name: NameFields, desc: NameFields, price: Option<int>,
    imageUrl: Option<string>, hasSpicy: Option<bool>, available: Option<bool>, sortOrder: Option<int>)

  const CategoryRequired: string := "categoryId is required"
  const CategoryNotFound: string := "Category not found"

  /** `findFirst({ where: { id, userId } })` on categories, as a yes/no. */
  predicate OwnsCategory(categories: seq<Category>, userId: Id, categoryId: Id)
  {
    exists i :: 0 <= i < |categories| && categories[i].id == categoryId && categories[i].userId == userId
  }

  /** `data.hasSpicy || false`. */
  function FlagOrFalse(o: Option<bool>): (r: bool)
    ensures r <==> o == Some(true)
  {
    o.Some? && o.value
  }

  /** `data.available !== undefined ? data.available : true`: only an
      absent field defaults, so an explicit `false` is kept. */
  function PresentOrTrue(o: Option<bool>): (r: bool)
    ensures o.Some? ==> r == o.value
    ensures o.None? ==> r
  {
    match o
    case None => true
    case Some(b) => b
  }

  /** The record the request creates, with id `id`. */
  function NewItem(req: MenuItemRequest, userId: Id, id: Id): (m: MenuItem)
    requires req.categoryId.Some?
    ensures m.id == id && m.userId == userId && m.categoryId == req.categoryId.value
    ensures m.name == FillNames(req.name) && m.desc == FillNames(req.desc)
    ensures m.price == (if req.price.Some? then req.price.value else 0)
    ensures m.imageUrl.Some? <==> Truthy(req.imageUrl)
    ensures m.imageUrl.Some? ==> m.imageUrl == req.imageUrl
    ensures m.hasSpicy <==> req.hasSpicy == Some(true)
    ensures m.available <==> req.available != Some(false)
    ensures m.sortOrder == (if req.sortOrder.Some? then req.sortOrder.value else 0)
  {
    MenuItem(id, userId, req.categoryId.value, FillNames(req.name), FillNames(req.desc), OrZero(req.price),
             OrNull(req.imageUrl), FlagOrFalse(req.hasSpicy), PresentOrTrue(req.available), OrZero(req.sortOrder))
  }

  /** The route: 401 without a session user, 400 without a category id,
      404 when the category is missing or another restaurant's, otherwise
      201 with the new item, appended to the store under the next id. */
  function CreateMenuItem(db: Db, session: Option<Id>, req: MenuItemRequest): (h: Handled<MenuItem>)
    ensures session.None? ==> h == Handled(Error(401, "Unauthorized"), db)
    ensures session.Some? && req.categoryId.None? ==> h == Handled(Error(400, CategoryRequired), db)
    ensures session.Some? && req.categoryId.Some? && !OwnsCategory(db.categories, session.value, req.categoryId.value)
            ==> h == Handled(Error(404, CategoryNotFound), db)
    ensures h.response.Ok? <==>
      session.Some? && req.categoryId.Some? && OwnsCategory(db.categories, session.value, req.categoryId.value)
    ensures h.response.Ok? ==>
      && h.response.status == 201
      && h.response.body == NewItem(req, session.value, db.nextId)
      && h.db == db.(menuItems := db.menuItems + [h.response.body], nextId := db.nextId + 1)
  {
    if session.None? then Handled(Unauthorized(), db)
    else if req.categoryId.None? then Handled(Error(400, CategoryRequired), db)
    else if !OwnsCategory(db.categories, session.value, req.categoryId.value) then Handled(Error(404, CategoryNotFound), db)
    else
      var item := NewItem(req, session.value, db.nextId);
      Handled(Ok(201, item), db.(menuItems := db.menuItems + [item], nextId := db.nextId + 1))
  }

  /** Every item stored under a category shares that category's owner. */
  predicate ItemsFollowCategories(db: Db)
  {
    forall i :: 0 <= i < |db.menuItems| ==>
      exists j :: 0 <= j < |db.categories| && db.categories[j].id == db.menuItems[i].categoryId
                  && db.categories[j].userId == db.menuItems[i].userId
  }

  /** The ownership check keeps the store's items under their owner's
      categories: a restaurant cannot file an item under another
      restaurant's category. */
  lemma {:induction false} CreateKeepsItemsWithOwner(db: Db, session: Option<Id>, req: MenuItemRequest)
    requires ItemsFollowCategories(db)
    ensures ItemsFollowCategories(CreateMenuItem(db, session, req).db)
  {
    var h := CreateMenuItem(db, session, req);
    if h.response.Ok? {
      var n := |db.menuItems|;
      forall i | 0 <= i < |h.db.menuItems|
        ensures exists j :: 0 <= j < |h.db.categories| && h.db.categories[j].id == h.db.menuItems[i].categoryId
                            && h.db.categories[j].userId == h.db.menuItems[i].userId
      {
        if i < n {
          assert h.db.menuItems[i] == db.menuItems[i];
        } else {
          assert h.db.menuItems[i] == NewItem(req, session.value, db.nextId);
        }
      }
    }
  }

  /** A rejected request leaves every table of the store as it was, and an
      accepted one touches only the menu items: one record more, at the end. */
  lemma {:induction false} CreateChangesOnlyMenuItems(db: Db, session: Option<Id>, req: MenuItemRequest)
    ensures var h := CreateMenuItem(db, session, req);
      && (h.response.Error? ==> h.db == db)
      && h.db.users == db.users && h.db.categories == db.categories && h.db.tables == db.tables
      && h.db.qrCodes == db.qrCodes
      && h.db.menuItems[..|db.menuItems|] == db.menuItems
      && |h.db.menuItems| == |db.menuItems| + (if h.response.Ok? then 1 else 0)
  {
  }
}
