/** The persistent records of the platform and the in-memory store that
    stands for the database. Every record that belongs to a restaurant
    carries the owning user's id (`userId`), the tenant key that every
    authenticated route filters on. Record ids are handed out by the store
    from a counter, in creation order. */
module Store {
  import opened Common

  type Id = nat

  /** A text in the five customer languages (English, Thai, Chinese,
      Japanese, Spanish), the `nameEn` … `nameEs` / `descEn` … `descEs`
      column groups. */
  datatype Names = Names(en: string, th: string, zh: string, ja: string, es: string)

  /** The same five texts as they arrive in a request body, each possibly
      absent. */
  datatype NameFields = NameFields(
    en: Option<string>, th: Option<string>, zh: Option<string>, ja: Option<string>, es: Option<string>)

  /** `nameXx: data.nameXx || ''` for the five languages. */
  function FillNames(f: NameFields): (n: Names)
    ensures f.en.Some? ==> n.en == f.en.value
    ensures f.en.None? ==> n.en == ""
    ensures f.th.Some? ==> n.th == f.th.value
    ensures f.th.None? ==> n.th == ""
    ensures f.zh.Some? ==> n.zh == f.zh.value
    ensures f.zh.None? ==> n.zh == ""
    ensures f.ja.Some? ==> n.ja == f.ja.value
    ensures f.ja.None? ==> n.ja == ""
    ensures f.es.Some? ==> n.es == f.es.value
    ensures f.es.None? ==> n.es == ""
  {
    Names(OrEmpty(f.en), OrEmpty(f.th), OrEmpty(f.zh), OrEmpty(f.ja), OrEmpty(f.es))
  }

  /** A restaurant account: the tenant. `password` holds the bcrypt hash. */
  datatype User = User(
    id: Id, email: string, password: string, restaurantName: string, slug: string,
    logo: Option<string>, primaryColor: string, currency: string, adminLang: string)

  datatype Category = Category(id: Id, userId: Id, name: Names, sortOrder: int)

  datatype MenuItem = MenuItem(
    id: Id, userId: Id, categoryId: Id, name: Names, desc: Names, price: int,
    imageUrl: Option<string>, hasSpicy: bool, available: bool, sortOrder: int)

  datatype Table = Table(id: Id, userId: Id, tableNumber: int, tableName: Option<string>)

  datatype QrCode = QrCode(id: Id, userId: Id, tableId: Id, qrUrl: string)

  /** One line of an order: the item name and unit price are copies taken
      when the order was placed. */
  datatype OrderItem = OrderItem(itemName: string, quantity: int, price: int, spicyLevel: int, notes: string)

  /** An order; `createdAt` is a timestamp in milliseconds. */
  datatype Order = Order(
    id: Id, userId: Id, tableNumber: int, status: string, notes: string, createdAt: int,
    items: seq<OrderItem>)

  datatype Booking = Booking(
    id: Id, userId: Id, customerName: string, customerPhone: string, guests: int,
    date: string, time: string, notes: string, status: string, createdAt: int)

  /** The database: one sequence per table, in insertion order, and the
      next id to hand out. */
  datatype Db = Db(
    users: seq<User>, categories: seq<Category>, menuItems: seq<MenuItem>,
    tables: seq<Table>, qrCodes: seq<QrCode>, nextId: nat)

  /** A route's answer together with the store it leaves behind. */
  datatype Handled<T> = Handled(response: Response<T>, db: Db)

  /** `findUnique({ where: { id } })` on users. */
  function FindUser(users: seq<User>, id: Id): (r: Option<User>)
    ensures r.Some? ==> r.value in users && r.value.id == id
    ensures r.None? ==> forall i :: 0 <= i < |users| ==> users[i].id != id
  {
    if |users| == 0 then None
    else if users[0].id == id then Some(users[0])
    else FindUser(users[1..], id)
  }

  // ---------------------------------------------------------------------
  // Money: the value of an order's lines
  // ---------------------------------------------------------------------

  function LineTotal(i: OrderItem): int
  {
    i.price * i.quantity
  }

  /** The sum of `price * quantity` over the lines (exact integer
      arithmetic, so the order of the additions does not matter). */
  function ItemsTotal(items: seq<OrderItem>): int
  {
    if |items| == 0 then 0 else LineTotal(items[0]) + ItemsTotal(items[1..])
  }

  predicate NonNegativeLines(items: seq<OrderItem>)
  {
    forall i :: 0 <= i < |items| ==> items[i].price >= 0 && items[i].quantity >= 0
  }

  /** The value of concatenated line lists is the sum of their values. */
  lemma {:induction false} ItemsTotalAppend(a: seq<OrderItem>, b: seq<OrderItem>)
    ensures ItemsTotal(a + b) == ItemsTotal(a) + ItemsTotal(b)
    decreases |a|
  {
    if |a| > 0 {
      assert (a + b)[0] == a[0];
      assert (a + b)[1..] == a[1..] + b;
      ItemsTotalAppend(a[1..], b);
    } else {
      assert a + b == b;
    }
  }

  /** Lines with non-negative prices and quantities have a non-negative value. */
  lemma {:induction false} ItemsTotalNonNegative(items: seq<OrderItem>)
    requires NonNegativeLines(items)
    ensures ItemsTotal(items) >= 0
    decreases |items|
  {
    if |items| > 0 {
      assert items[0].price * items[0].quantity >= 0;
      ItemsTotalNonNegative(items[1..]);
    }
  }

  // ---------------------------------------------------------------------
  // QR code URLs
  // ---------------------------------------------------------------------

  const DefaultBaseUrl: string := "http://localhost:3000"

  /** `process.env.NEXTAUTH_URL || 'http://localhost:3000'`. */
  function BaseUrl(env: Option<string>): (r: string)
    ensures Truthy(env) ==> r == env.value
    ensures !Truthy(env) ==> r == DefaultBaseUrl
  {
    OrElse(env, DefaultBaseUrl)
  }

  /** The address a table's QR code points at:
      `${baseUrl}/menu/${slug}/${table.id}`. */
  function QrUrl(baseUrl: string, slug: string, tableId: Id): string
  {
    baseUrl + "/menu/" + slug + "/" + DecimalString(tableId)
  }

  /** A QR address is the restaurant's menu prefix followed by the table id
      and nothing else, and the digits read back as the table id. */
  lemma {:induction false} QrUrlShape(baseUrl: string, slug: string, tableId: Id)
    ensures var prefix := baseUrl + "/menu/" + slug + "/";
      && |QrUrl(baseUrl, slug, tableId)| > |prefix|
      && QrUrl(baseUrl, slug, tableId)[..|prefix|] == prefix
      && QrUrl(baseUrl, slug, tableId)[|prefix|..] == DecimalString(tableId)
      && DecimalValue(QrUrl(baseUrl, slug, tableId)[|prefix|..]) == tableId
  {
    DecimalRoundTrip(tableId);
  }
}
