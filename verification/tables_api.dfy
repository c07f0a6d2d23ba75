/** `GET` and `POST /api/tables`: a restaurant's tables with their QR
    codes, and creating a table together with its QR code.

    `tableNumber` arrives already through `parseInt`; the base URL of the
    QR address is the `NEXTAUTH_URL` setting, passed in as `env`. */
module TablesApi {
  import opened Common
  import opened Store

  /** A table as the listing returns it: with its QR code, if it has one. */
  datatype TableListing = TableListing(table: Table, qrCode: Option<QrCode>)

  function TableOrder(t: Table): int { t.tableNumber }

  /** `include: { qrCode: true }`: the QR code of the table `tableId`. */
  function QrOf(codes: seq<QrCode>, tableId: Id): (r: Option<QrCode>)
    ensures r.Some? ==> r.value in codes && r.value.tableId == tableId
    ensures r.None? <==> forall i :: 0 <= i < |codes| ==> codes[i].tableId != tableId
  {
    if |codes| == 0 then None
    else if codes[0].tableId == tableId then Some(codes[0])
    else QrOf(codes[1..], tableId)
  }

  function WithQr(tables: seq<Table>, codes: seq<QrCode>): (r: seq<TableListing>)
    ensures |r| == |tables|
    ensures forall i :: 0 <= i < |r| ==> r[i] == TableListing(tables[i], QrOf(codes, tables[i].id))
  {
    if |tables| == 0 then [] else [TableListing(tables[0], QrOf(codes, tables[0].id))] + WithQr(tables[1..], codes)
  }

  /** `findMany({ where: { userId }, orderBy: { tableNumber: 'asc' } })`. */
  function OwnTables(tables: seq<Table>, userId: Id): (r: seq<Table>)
    ensures SortedBy(r, TableOrder)
    ensures forall t :: t in r <==> t in tables && t.userId == userId
  {
    var mine := Filter(tables, (t: Table) => t.userId == userId);
    FilterComplete(tables, (t: Table) => t.userId == userId);
    SortByMembers(mine, TableOrder);
    SortBy(mine, TableOrder)
  }

  /** The restaurant's tables are listed once each: every one of them as
      often as the table holds it, and no other restaurant's. */
  lemma {:induction false} OwnTablesCounts(tables: seq<Table>, userId: Id)
    ensures forall t :: multiset(OwnTables(tables, userId))[t] == if t.userId == userId then multiset(tables)[t] else 0
  {
    FilterMultiplicity(tables, (t: Table) => t.userId == userId);
  }

  /** The `GET` route: 401 without a session user, otherwise 200 with the
      restaurant's tables and their QR codes (`TableListingScoped`,
      `TableListingSorted`, `TableListingComplete`). */
  function ListTables(db: Db, session: Option<Id>): (r: Response<seq<TableListing>>)
    ensures session.None? ==> r == Error(401, "Unauthorized")
    ensures session.Some? ==> r.Ok? && r.status == 200
  {
    if session.None? then Unauthorized()
    else Ok(200, WithQr(OwnTables(db.tables, session.value), db.qrCodes))
  }

  /** Only the restaurant's own tables are listed, each with a QR code
      that belongs to it. */
  lemma {:induction false} TableListingScoped(db: Db, userId: Id)
    ensures var listed := ListTables(db, Some(userId)).body;
      forall i :: 0 <= i < |listed| ==>
        && listed[i].table in db.tables
        && listed[i].table.userId == userId
        && (listed[i].qrCode.Some? ==>
              listed[i].qrCode.value in db.qrCodes && listed[i].qrCode.value.tableId == listed[i].table.id)
  {
    var own := OwnTables(db.tables, userId);
    var listed := ListTables(db, Some(userId)).body;
    forall i | 0 <= i < |listed|
      ensures listed[i].table in db.tables && listed[i].table.userId == userId
    {
      assert listed[i].table == own[i];
    }
  }

  /** The tables come in ascending table number. */
  lemma {:induction false} TableListingSorted(db: Db, userId: Id)
    ensures var listed := ListTables(db, Some(userId)).body;
      forall i, j :: 0 <= i < j < |listed| ==> listed[i].table.tableNumber <= listed[j].table.tableNumber
  {
    var own := OwnTables(db.tables, userId);
    var listed := ListTables(db, Some(userId)).body;
    forall i, j | 0 <= i < j < |listed|
      ensures listed[i].table.tableNumber <= listed[j].table.tableNumber
    {
      assert listed[i].table == own[i] && listed[j].table == own[j];
      assert TableOrder(own[i]) <= TableOrder(own[j]);
    }
  }

  /** Every table of the restaurant is listed. */
  lemma {:induction false} TableListingComplete(db: Db, userId: Id)
    ensures var listed := ListTables(db, Some(userId)).body;
      forall t :: t in db.tables && t.userId == userId ==> exists i :: 0 <= i < |listed| && listed[i].table == t
  {
    var own := OwnTables(db.tables, userId);
    var listed := ListTables(db, Some(userId)).body;
    forall t | t in db.tables && t.userId == userId
      ensures exists i :: 0 <= i < |listed| && listed[i].table == t
    {
      var i :| 0 <= i < |own| && own[i] == t;
      assert listed[i].table == t;
    }
  }

  /** The JSON body of `POST`. */
  datatype TableRequest = TableRequest(tableNumber: int, tableName: Option<string>)

  /** The answer of `POST`: the table's fields together with its QR code. */
  datatype CreatedTable = CreatedTable(table: Table, qrCode: QrCode)

  const UserNotFound: string := "User not found"

  /** The `POST` route: 401 without a session user, 404 when the session
      user has no record, otherwise 201 with the new table (the next id)
      and its QR code (the id after), which points at the restaurant's menu
      page for that table. */
  function CreateTable(db: Db, session: Option<Id>, env: Option<string>, req: TableRequest): (h: Handled<CreatedTable>)
    ensures session.None? ==> h == Handled(Error(401, "Unauthorized"), db)
    ensures session.Some? && FindUser(db.users, session.value).None? ==> h == Handled(Error(404, UserNotFound), db)
    ensures h.response.Ok? <==> session.Some? && FindUser(db.users, session.value).Some?
    ensures h.response.Ok? ==>
      var t := h.response.body.table;
      var q := h.response.body.qrCode;
      && h.response.status == 201
      && t == Table(db.nextId, session.value, req.tableNumber, OrNull(req.tableName))
      && q == QrCode(db.nextId + 1, session.value, t.id,
                     QrUrl(BaseUrl(env), FindUser(db.users, session.value).value.slug, t.id))
      && h.db == db.(tables := db.tables + [t], qrCodes := db.qrCodes + [q], nextId := db.nextId + 2)
  {
    if session.None? then Handled(Unauthorized(), db)
    else
      match FindUser(db.users, session.value)
      case None => Handled(Error(404, UserNotFound), db)
      case Some(user) =>
        var t := Table(db.nextId, session.value, req.tableNumber, OrNull(req.tableName));
        var q := QrCode(t.id + 1, session.value, t.id, QrUrl(BaseUrl(env), user.slug, t.id));
        Handled(Ok(201, CreatedTable(t, q)),
                db.(tables := db.tables + [t], qrCodes := db.qrCodes + [q], nextId := db.nextId + 2))
  }

  /** Every table has exactly one QR code, and the code shares the table's
      owner. */
  predicate OneQrPerTable(db: Db)
  {
    && (forall i :: 0 <= i < |db.tables| ==>
          exists k :: 0 <= k < |db.qrCodes| && db.qrCodes[k].tableId == db.tables[i].id
                      && db.qrCodes[k].userId == db.tables[i].userId)
    && (forall k, l :: 0 <= k < l < |db.qrCodes| ==> db.qrCodes[k].tableId != db.qrCodes[l].tableId)
  }

  /** Ids below the counter are taken; the counter is fresh. */
  predicate IdsBelowCounter(db: Db)
  {
    && (forall i :: 0 <= i < |db.tables| ==> db.tables[i].id < db.nextId)
    && (forall k :: 0 <= k < |db.qrCodes| ==> db.qrCodes[k].tableId < db.nextId)
  }

  /** Creating a table keeps every table paired with exactly one QR code of
      the same owner. */
  lemma {:induction false} CreateKeepsOneQrPerTable(db: Db, session: Option<Id>, env: Option<string>, req: TableRequest)
    requires OneQrPerTable(db) && IdsBelowCounter(db)
    ensures var h := CreateTable(db, session, env, req);
      OneQrPerTable(h.db) && IdsBelowCounter(h.db)
  {
    var h := CreateTable(db, session, env, req);
    if h.response.Ok? {
      var q := h.response.body.qrCode;
      var n := |db.qrCodes|;
      assert forall k :: 0 <= k < n ==> h.db.qrCodes[k] == db.qrCodes[k] && db.qrCodes[k].tableId != q.tableId;
      forall i | 0 <= i < |h.db.tables|
        ensures exists k :: 0 <= k < |h.db.qrCodes| && h.db.qrCodes[k].tableId == h.db.tables[i].id
                            && h.db.qrCodes[k].userId == h.db.tables[i].userId
      {
        if i < |db.tables| {
          var k :| 0 <= k < n && db.qrCodes[k].tableId == db.tables[i].id && db.qrCodes[k].userId == db.tables[i].userId;
          assert h.db.qrCodes[k] == db.qrCodes[k];
        } else {
          assert h.db.qrCodes[n] == q;
        }
      }
    }
  }

  /** The new table is listed with the QR code created for it. */
  lemma {:induction false} CreatedTableFindsItsQr(db: Db, session: Option<Id>, env: Option<string>, req: TableRequest)
    requires IdsBelowCounter(db)
    ensures var h := CreateTable(db, session, env, req);
      h.response.Ok? ==> QrOf(h.db.qrCodes, h.response.body.table.id) == Some(h.response.body.qrCode)
  {
    var h := CreateTable(db, session, env, req);
    if h.response.Ok? {
      QrOfLast(db.qrCodes, h.response.body.qrCode);
    }
  }

  /** A code appended for a table no earlier code points at is the one
      found for that table. */
  lemma {:induction false} QrOfLast(codes: seq<QrCode>, q: QrCode)
    requires forall k :: 0 <= k < |codes| ==> codes[k].tableId != q.tableId
    ensures QrOf(codes + [q], q.tableId) == Some(q)
    decreases |codes|
  {
    if |codes| == 0 {
      assert codes + [q] == [q];
    } else {
      assert (codes + [q])[1..] == codes[1..] + [q];
      QrOfLast(codes[1..], q);
    }
  }
}
