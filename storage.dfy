/**
 * The storage gateway `DatabaseStorage`: the relational tables held in
 * memory, one sequence of rows per table plus each table's serial
 * sequence. Inserts append a row with a fresh id, the client update
 * rewrites matching rows in place, and the read queries change nothing.
 *
 * The functions at module level say, over a database value, what the
 * queries return and when a statement is refused by a constraint; the
 * class's methods are proved against them.
 */
module Storage {
  import opened Common
  import opened Schema
  import Sequences

  /** The errors the store raises: a constraint, with the offending column, or an update that sets no column. */
  datatype DbError = UniqueViolation(column: string) | ForeignKeyViolation(column: string) | NoValuesToSet

  // ---- Queries over a database value -------------------------------------

  /** `select from users where id = ?`, first row. */
  function UserById(db: Db, id: Id): (r: Option<User>)
    ensures r.Some? ==> r.value in db.users && r.value.id == id
    ensures r.None? <==> !HasUser(db.users, id)
    ensures Valid(db) && r.Some? ==> forall u :: u in db.users && u.id == id ==> u == r.value
  {
    var r := Sequences.First(db.users, (u: User) => u.id == id);
    assert r.None? <==> !HasUser(db.users, id) by {
      if r.None? {
        forall u | u in db.users ensures u.id != id {
          var i :| 0 <= i < |db.users| && db.users[i] == u;
        }
      }
    }
    r
  }

  /** `select from users where username = ?`, first row. */
  function UserByUsername(db: Db, username: string): (r: Option<User>)
    ensures r.Some? ==> r.value in db.users && r.value.username == username
    ensures r.None? <==> !UsernameTaken(db.users, username)
    ensures Valid(db) && r.Some? ==> forall u :: u in db.users && u.username == username ==> u == r.value
  {
    var r := Sequences.First(db.users, (u: User) => u.username == username);
    assert r.None? <==> !UsernameTaken(db.users, username) by {
      if r.None? {
        forall u | u in db.users ensures u.username != username {
          var i :| 0 <= i < |db.users| && db.users[i] == u;
        }
      }
    }
    r
  }

  /** `select from clients where id = ?`, first row. */
  function ClientById(db: Db, id: Id): (r: Option<Client>)
    ensures r.Some? ==> r.value in db.clients && r.value.id == id
    ensures r.None? <==> !HasClient(db.clients, id)
    ensures Valid(db) && r.Some? ==> forall c :: c in db.clients && c.id == id ==> c == r.value
  {
    var r := Sequences.First(db.clients, (c: Client) => c.id == id);
    assert r.None? <==> !HasClient(db.clients, id) by {
      if r.None? {
        forall c | c in db.clients ensures c.id != id {
          var i :| 0 <= i < |db.clients| && db.clients[i] == c;
        }
      }
    }
    r
  }

  /**
   * `select from clients where user_id = ?`, first row. `user_id` is not a
   * unique column, so this is the earliest client of that user in table order.
   */
  function ClientOfUser(clients: seq<Client>, userId: Id): (r: Option<Client>)
    ensures r.None? <==> forall c :: c in clients ==> c.userId != userId
    ensures r.Some? ==>
      exists i :: 0 <= i < |clients| && clients[i] == r.value && r.value.userId == userId
        && forall j :: 0 <= j < i ==> clients[j].userId != userId
  {
    var r := Sequences.First(clients, (c: Client) => c.userId == userId);
    assert r.None? ==> forall c :: c in clients ==> c.userId != userId by {
      if r.None? {
        forall c | c in clients ensures c.userId != userId {
          var i :| 0 <= i < |clients| && clients[i] == c;
        }
      }
    }
    r
  }

  /** `select from shipments where client_id = ?`. */
  function ShipmentsOfClient(shipments: seq<Shipment>, clientId: Id): (r: seq<Shipment>)
    ensures forall s :: s in r <==> s in shipments && s.clientId == clientId
    ensures forall s :: multiset(r)[s] == if s.clientId == clientId then multiset(shipments)[s] else 0
    ensures Sequences.IsSubsequence(r, shipments)
  {
    var p := (s: Shipment) => s.clientId == clientId;
    Sequences.FilterMembers(shipments, p);
    Sequences.FilterCounts(shipments, p);
    Sequences.FilterKeepsOrder(shipments, p);
    Sequences.Filter(shipments, p)
  }

  /** What `getSuiteProducts(userId)` returns: nothing without a client, otherwise every product. */
  function SuiteProductsOf(db: Db, userId: Id): (r: seq<Product>)
    ensures (forall c :: c in db.clients ==> c.userId != userId) ==> r == []
    ensures (exists c :: c in db.clients && c.userId == userId) ==> r == db.products
    ensures r == [] <==> (forall c :: c in db.clients ==> c.userId != userId) || db.products == []
  {
    if ClientOfUser(db.clients, userId).None? then [] else db.products
  }

  /** What `getShipments(userId)` returns: the shipments of the user's (first) client, in table order. */
  function ShipmentsOf(db: Db, userId: Id): (r: seq<Shipment>)
    ensures ClientOfUser(db.clients, userId).None? ==> r == []
    ensures ClientOfUser(db.clients, userId).Some? ==>
      var c := ClientOfUser(db.clients, userId).value;
      && Sequences.IsSubsequence(r, db.shipments)
      && (forall s :: s in r <==> s in db.shipments && s.clientId == c.id)
      && (forall s :: multiset(r)[s] == if s.clientId == c.id then multiset(db.shipments)[s] else 0)
  {
    match ClientOfUser(db.clients, userId)
    case None => []
    case Some(c) => ShipmentsOfClient(db.shipments, c.id)
  }

  // ---- When the store refuses a statement --------------------------------

  function UserInsertError(db: Db, u: NewUser): Option<DbError> {
    if UsernameTaken(db.users, u.username) then Some(UniqueViolation("username")) else None
  }

  /** The unique index is checked as the row goes in, before the foreign-key trigger. */
  function ClientInsertError(db: Db, c: NewClient): Option<DbError> {
    if SuiteIdTaken(db.clients, c.suiteId, None) then Some(UniqueViolation("suite_id"))
    else if !HasUser(db.users, c.userId) then Some(ForeignKeyViolation("user_id"))
    else None
  }

  function ShipmentInsertError(db: Db, s: NewShipment): Option<DbError> {
    if !HasClient(db.clients, s.clientId) then Some(ForeignKeyViolation("client_id"))
    else if !HasCarrier(db.carriers, s.carrierId) then Some(ForeignKeyViolation("carrier_id"))
    else None
  }

  /**
   * An update that sets no column is refused by the query builder before any
   * row is read. Otherwise an update that matches no row checks nothing, and
   * one that matches a row must respect the constraints.
   */
  function ClientUpdateError(db: Db, id: Id, p: ClientPatch): Option<DbError> {
    if p == EmptyPatch then Some(NoValuesToSet)
    else if !HasClient(db.clients, id) then None
    else if p.suiteId.Given? && SuiteIdTaken(db.clients, p.suiteId.value, Some(id)) then Some(UniqueViolation("suite_id"))
    else if p.userId.Given? && !HasUser(db.users, p.userId.value) then Some(ForeignKeyViolation("user_id"))
    else None
  }

  /** `update clients set <p> where id = <id>`: every matching row patched, the others kept. */
  function PatchWhere(clients: seq<Client>, id: Id, p: ClientPatch): (r: seq<Client>)
    ensures |r| == |clients|
    ensures forall k :: 0 <= k < |r| ==> r[k].id == clients[k].id
  {
    seq(|clients|, k requires 0 <= k < |clients| => if clients[k].id == id then ApplyPatch(clients[k], p) else clients[k])
  }

  // ---- Posting a client, then reading it back by user ----------------------

  /** A user's first client, once inserted, is what the lookup by user id returns. */
  lemma NewClientFoundByUser(clients: seq<Client>, id: Id, c: NewClient)
    requires ClientOfUser(clients, c.userId).None?
    ensures ClientOfUser(clients + [ClientRow(id, c)], c.userId) == Some(ClientRow(id, c))
  {
    var cs := clients + [ClientRow(id, c)];
    assert cs[|clients|] == ClientRow(id, c);
    assert ClientRow(id, c) in cs;
    var r := ClientOfUser(cs, c.userId);
    var i :| 0 <= i < |cs| && cs[i] == r.value && r.value.userId == c.userId
      && forall j :: 0 <= j < i ==> cs[j].userId != c.userId;
    assert forall j :: 0 <= j < |clients| ==> cs[j] == clients[j] && clients[j] in clients;
    assert i == |clients|;
  }

  /** Appending a row never changes which client the lookup finds for a user who already had one. */
  lemma EarlierClientStillFound(clients: seq<Client>, row: Client, userId: Id)
    requires ClientOfUser(clients, userId).Some?
    ensures ClientOfUser(clients + [row], userId) == ClientOfUser(clients, userId)
  {
    var cs := clients + [row];
    var r := ClientOfUser(clients, userId);
    var i :| 0 <= i < |clients| && clients[i] == r.value && r.value.userId == userId
      && forall j :: 0 <= j < i ==> clients[j].userId != userId;
    assert cs[i] == clients[i];
    assert cs[i] in cs;
    var r' := ClientOfUser(cs, userId);
    var i' :| 0 <= i' < |cs| && cs[i'] == r'.value && r'.value.userId == userId
      && forall j :: 0 <= j < i' ==> cs[j].userId != userId;
    assert i' <= i;
    assert cs[i'] == clients[i'];
    assert i' == i;
  }

  /**
   * `user_id` is not unique: when the user already has a client, a new client
   * row for that user is appended but the lookup by user id still finds the
   * earlier one.
   */
  lemma EarlierClientShadowsNew(clients: seq<Client>, id: Id, c: NewClient, prior: Client)
    requires prior in clients && prior.userId == c.userId
    requires forall x :: x in clients ==> x.id != id
    ensures ClientOfUser(clients + [ClientRow(id, c)], c.userId) != Some(ClientRow(id, c))
  {
    EarlierClientStillFound(clients, ClientRow(id, c), c.userId);
    var r := ClientOfUser(clients, c.userId);
    var i :| 0 <= i < |clients| && clients[i] == r.value && r.value.userId == c.userId
      && forall j :: 0 <= j < i ==> clients[j].userId != c.userId;
    assert clients[i] in clients;
  }


  /**
   * The client insert with `user_id` unique, as the one-to-one relation from
   * users to clients describes: a user who already has a client is refused.
   */
  function ClientInsertErrorOnePerUser(db: Db, c: NewClient): (e: Option<DbError>)
    ensures e.None? <==> ClientInsertError(db, c).None? && forall x :: x in db.clients ==> x.userId != c.userId
  {
    var e := ClientInsertError(db, c);
    if e.Some? then e
    else if ClientOfUser(db.clients, c.userId).Some? then Some(UniqueViolation("user_id"))
    else None
  }

  /** With `user_id` unique, every accepted client insert is what the lookup by user id then returns. */
  lemma OnePerUserPostThenGet(db: Db, id: Id, c: NewClient)
    requires ClientInsertErrorOnePerUser(db, c).None?
    ensures ClientOfUser(db.clients + [ClientRow(id, c)], c.userId) == Some(ClientRow(id, c))
  {
    NewClientFoundByUser(db.clients, id, c);
  }

  // ---- Serial sequences ---------------------------------------------------

  /** The next value of each table's `serial` sequence. */
  datatype Serials = Serials(user: Id, client: Id, product: Id, carrier: Id, shipment: Id)

  const FirstSerials := Serials(1, 1, 1, 1, 1)

  /** Every id already used is positive and below its table's next serial value. */
  predicate SerialsAhead(db: Db, next: Serials) {
    && 0 < next.user && 0 < next.client && 0 < next.product && 0 < next.carrier && 0 < next.shipment
    && (forall u :: u in db.users ==> 0 < u.id < next.user)
    && (forall c :: c in db.clients ==> 0 < c.id < next.client)
    && (forall p :: p in db.products ==> 0 < p.id < next.product)
    && (forall c :: c in db.carriers ==> 0 < c.id < next.carrier)
    && (forall s :: s in db.shipments ==> 0 < s.id < next.shipment)
  }

  // ---- Lemmas: each statement keeps the schema's constraints --------------

  lemma InsertUserValid(db: Db, next: Serials, u: NewUser)
    requires Valid(db) && SerialsAhead(db, next)
    requires UserInsertError(db, u).None?
    ensures var db' := db.(users := db.users + [UserRow(next.user, u)]);
      Valid(db') && SerialsAhead(db', next.(user := next.user + 1))
  {
    var row := UserRow(next.user, u);
    var us := db.users + [row];
    assert forall i :: 0 <= i < |db.users| ==> db.users[i] in db.users;
    assert UniqueBy(us, (x: User) => x.id);
    assert UniqueBy(us, (x: User) => x.username);
    forall c | c in db.clients ensures HasUser(us, c.userId) {
      var w :| w in db.users && w.id == c.userId;
      assert w in us;
    }
  }

  lemma InsertClientValid(db: Db, next: Serials, c: NewClient)
    requires Valid(db) && SerialsAhead(db, next)
    requires ClientInsertError(db, c).None?
    ensures var db' := db.(clients := db.clients + [ClientRow(next.client, c)]);
      Valid(db') && SerialsAhead(db', next.(client := next.client + 1))
  {
    var row := ClientRow(next.client, c);
    var cs := db.clients + [row];
    assert forall i :: 0 <= i < |db.clients| ==> db.clients[i] in db.clients;
    assert UniqueBy(cs, (x: Client) => x.id);
    assert UniqueBy(cs, (x: Client) => x.suiteId);
    forall s | s in db.shipments ensures HasClient(cs, s.clientId) {
      var w :| w in db.clients && w.id == s.clientId;
      assert w in cs;
    }
  }

  lemma InsertProductValid(db: Db, next: Serials, p: NewProduct)
    requires Valid(db) && SerialsAhead(db, next)
    ensures var db' := db.(products := db.products + [ProductRow(next.product, p)]);
      Valid(db') && SerialsAhead(db', next.(product := next.product + 1))
  {
    var ps := db.products + [ProductRow(next.product, p)];
    assert forall i :: 0 <= i < |db.products| ==> db.products[i] in db.products;
    assert UniqueBy(ps, (x: Product) => x.id);
    forall sp | sp in db.shipmentProducts ensures HasProduct(ps, sp.productId) {
      var w :| w in db.products && w.id == sp.productId;
      assert w in ps;
    }
  }

  lemma InsertCarrierValid(db: Db, next: Serials, c: NewCarrier)
    requires Valid(db) && SerialsAhead(db, next)
    ensures var db' := db.(carriers := db.carriers + [CarrierRow(next.carrier, c)]);
      Valid(db') && SerialsAhead(db', next.(carrier := next.carrier + 1))
  {
    var cs := db.carriers + [CarrierRow(next.carrier, c)];
    assert forall i :: 0 <= i < |db.carriers| ==> db.carriers[i] in db.carriers;
    assert UniqueBy(cs, (x: Carrier) => x.id);
    forall s | s in db.shipments ensures HasCarrier(cs, s.carrierId) {
      var w :| w in db.carriers && w.id == s.carrierId;
      assert w in cs;
    }
  }

  lemma InsertShipmentValid(db: Db, next: Serials, s: NewShipment, now: Timestamp)
    requires Valid(db) && SerialsAhead(db, next)
    requires ShipmentInsertError(db, s).None?
    ensures var db' := db.(shipments := db.shipments + [ShipmentRow(next.shipment, s, now)]);
      Valid(db') && SerialsAhead(db', next.(shipment := next.shipment + 1))
  {
    var ss := db.shipments + [ShipmentRow(next.shipment, s, now)];
    assert forall i :: 0 <= i < |db.shipments| ==> db.shipments[i] in db.shipments;
    assert UniqueBy(ss, (x: Shipment) => x.id);
    forall sp | sp in db.shipmentProducts ensures HasShipment(ss, sp.shipmentId) {
      var w :| w in db.shipments && w.id == sp.shipmentId;
      assert w in ss;
    }
  }

  lemma UpdateClientValid(db: Db, next: Serials, id: Id, p: ClientPatch)
    requires Valid(db) && SerialsAhead(db, next)
    requires ClientUpdateError(db, id, p).None?
    ensures var db' := db.(clients := PatchWhere(db.clients, id, p));
      Valid(db') && SerialsAhead(db', next)
  {
    PatchKeepsRowBounds(db, next, id, p);
    PatchKeepsSuiteIdsUnique(db, id, p);
    PatchKeepsClientIds(db, id, p);
  }

  /** Every patched row keeps its id below the serial and still names an existing user. */
  lemma PatchKeepsRowBounds(db: Db, next: Serials, id: Id, p: ClientPatch)
    requires ForeignKeys(db) && SerialsAhead(db, next)
    requires ClientUpdateError(db, id, p).None?
    ensures forall c :: c in PatchWhere(db.clients, id, p) ==> 0 < c.id < next.client && HasUser(db.users, c.userId)
  {
    var cs := PatchWhere(db.clients, id, p);
    forall c | c in cs ensures 0 < c.id < next.client && HasUser(db.users, c.userId) {
      var k :| 0 <= k < |cs| && cs[k] == c;
      assert db.clients[k] in db.clients;
    }
  }

  /** A patch that passed the suite-id check leaves the suite ids unique. */
  lemma PatchKeepsSuiteIdsUnique(db: Db, id: Id, p: ClientPatch)
    requires UniqueBy(db.clients, (c: Client) => c.id) && UniqueBy(db.clients, (c: Client) => c.suiteId)
    requires ClientUpdateError(db, id, p).None?
    ensures UniqueBy(PatchWhere(db.clients, id, p), (c: Client) => c.suiteId)
  {
    var cs := PatchWhere(db.clients, id, p);
    forall i, j | 0 <= i < j < |cs| ensures cs[i].suiteId != cs[j].suiteId {
      assert db.clients[i] in db.clients && db.clients[j] in db.clients;
    }
  }

  /** A patch keeps every id, so the ids stay unique and every shipment's client is still there. */
  lemma PatchKeepsClientIds(db: Db, id: Id, p: ClientPatch)
    requires UniqueBy(db.clients, (c: Client) => c.id)
    requires forall s :: s in db.shipments ==> HasClient(db.clients, s.clientId)
    ensures UniqueBy(PatchWhere(db.clients, id, p), (c: Client) => c.id)
    ensures forall s :: s in db.shipments ==> HasClient(PatchWhere(db.clients, id, p), s.clientId)
  {
    var cs := PatchWhere(db.clients, id, p);
    forall s | s in db.shipments ensures HasClient(cs, s.clientId) {
      var w :| w in db.clients && w.id == s.clientId;
      var k :| 0 <= k < |db.clients| && db.clients[k] == w;
      assert cs[k] in cs;
    }
  }

  /** With unique ids, an update by id rewrites at most one row, and reading it back finds that row. */
  lemma PatchedRow(clients: seq<Client>, id: Id, p: ClientPatch)
    requires UniqueBy(clients, (c: Client) => c.id)
    ensures var cs := PatchWhere(clients, id, p);
      var f := ClientById(EmptyDb.(clients := cs), id);
      && (f.None? <==> !HasClient(clients, id))
      && (f.Some? ==>
            exists k :: 0 <= k < |clients| && clients[k].id == id
              && f.value == ApplyPatch(clients[k], p) && cs == clients[k := f.value])
  {
    var cs := PatchWhere(clients, id, p);
    var f := ClientById(EmptyDb.(clients := cs), id);
    if f.Some? {
      var k :| 0 <= k < |cs| && cs[k] == f.value;
      forall j | 0 <= j < |clients| && j != k ensures clients[j].id != id {
        if j < k { assert clients[j].id != clients[k].id; } else { assert clients[k].id != clients[j].id; }
      }
      assert cs == clients[k := f.value];
    } else {
      forall c | c in clients ensures c.id != id {
        var k :| 0 <= k < |clients| && clients[k] == c;
        assert cs[k] in cs;
      }
    }
  }

  // ---- The gateway object --------------------------------------------------

  class DatabaseStorage {
    var users: seq<User>
    var clients: seq<Client>
    var products: seq<Product>
    var carriers: seq<Carrier>
    var shipments: seq<Shipment>
    var shipmentProducts: seq<ShipmentProduct>
    var systemSettings: seq<SystemSettings>
    var next: Serials

    /** The tables as one database value. */
    function Db(): Db
      reads this
    {
      Schema.Db(users, clients, products, carriers, shipments, shipmentProducts, systemSettings)
    }

    /** The schema's constraints hold and every serial is ahead of the ids in its table. */
    ghost predicate Valid()
      reads this
    {
      Schema.Valid(Db()) && SerialsAhead(Db(), next)
    }

    /** A fresh database: every table empty, every sequence at 1. */
    constructor ()
      ensures Valid()
      ensures Db() == EmptyDb && next == FirstSerials
    {
      users, clients, products, carriers, shipments, shipmentProducts, systemSettings := [], [], [], [], [], [], [];
      next := FirstSerials;
    }

    method GetUser(id: Id) returns (r: Option<User>)
      ensures r == UserById(Db(), id)
      ensures r.Some? <==> HasUser(users, id)
      ensures r.Some? ==> r.value in users && r.value.id == id
    {
      r := Sequences.First(users, (u: User) => u.id == id);
    }

    method GetUserByUsername(username: string) returns (r: Option<User>)
      ensures r == UserByUsername(Db(), username)
      ensures r.Some? <==> UsernameTaken(users, username)
      ensures r.Some? ==> r.value in users && r.value.username == username
    {
      r := Sequences.First(users, (u: User) => u.username == username);
    }

    /** Fails, changing nothing, when the username is taken. */
    method CreateUser(u: NewUser) returns (r: Result<User, DbError>)
      requires Valid()
      modifies this
      ensures Valid()
      ensures r.Err? <==> UsernameTaken(old(users), u.username)
      ensures r.Err? ==> r.error == UniqueViolation("username") && Db() == old(Db()) && next == old(next)
      ensures r.Ok? ==> !HasUser(old(users), r.value.id)
      ensures r.Ok? ==>
        && r.value == UserRow(old(next.user), u)
        && Db() == old(Db()).(users := old(users) + [r.value])
        && next == old(next).(user := old(next.user) + 1)
    {
      if UsernameTaken(users, u.username) {
        return Err(UniqueViolation("username"));
      }
      InsertUserValid(Db(), next, u);
      var row := UserRow(next.user, u);
      users := users + [row];
      next := next.(user := next.user + 1);
      r := Ok(row);
    }

    /** Fails, changing nothing, when the suite id is taken or the user does not exist. */
    method CreateClient(c: NewClient) returns (r: Result<Client, DbError>)
      requires Valid()
      modifies this
      ensures Valid()
      ensures r.Err? <==> ClientInsertError(old(Db()), c).Some?
      ensures r.Err? ==> r.error == ClientInsertError(old(Db()), c).value && Db() == old(Db()) && next == old(next)
      ensures r.Ok? ==> !HasClient(old(clients), r.value.id)
      ensures r.Ok? ==>
        && r.value == ClientRow(old(next.client), c)
        && Db() == old(Db()).(clients := old(clients) + [r.value])
        && next == old(next).(client := old(next.client) + 1)
    {
      var e := ClientInsertError(Db(), c);
      if e.Some? {
        return Err(e.value);
      }
      InsertClientValid(Db(), next, c);
      var row := ClientRow(next.client, c);
      clients := clients + [row];
      next := next.(client := next.client + 1);
      r := Ok(row);
    }

    /**
     * Patches the client whose id is `id` and returns the updated row; matches
     * no row and returns `None`, changing nothing, when there is no such client.
     * An update that sets no column fails, changing nothing, in either case.
     */
    method UpdateClient(id: Id, patch: ClientPatch) returns (r: Result<Option<Client>, DbError>)
      requires Valid()
      modifies this
      ensures Valid() && next == old(next)
      ensures r.Err? <==> ClientUpdateError(old(Db()), id, patch).Some?
      ensures r.Err? ==> r.error == ClientUpdateError(old(Db()), id, patch).value && Db() == old(Db())
      ensures r == Ok(None) <==> !HasClient(old(clients), id) && patch != EmptyPatch
      ensures r.Ok? ==> Db() == old(Db()).(clients := PatchWhere(old(clients), id, patch))
      ensures r.Ok? ==> forall k :: 0 <= k < |clients| && old(clients)[k].id != id ==> clients[k] == old(clients)[k]
      ensures r.Ok? && r.value.Some? ==>
        exists k :: 0 <= k < |old(clients)| && old(clients)[k].id == id
          && r.value.value == ApplyPatch(old(clients)[k], patch) && clients == old(clients)[k := r.value.value]
    {
      var e := ClientUpdateError(Db(), id, patch);
      if e.Some? {
        return Err(e.value);
      }
      UpdateClientValid(Db(), next, id, patch);
      PatchedRow(clients, id, patch);
      clients := PatchWhere(clients, id, patch);
      r := Ok(ClientById(Db(), id));
    }

    method GetClient(id: Id) returns (r: Option<Client>)
      ensures r == ClientById(Db(), id)
      ensures r.Some? <==> HasClient(clients, id)
      ensures r.Some? ==> r.value in clients && r.value.id == id
    {
      r := Sequences.First(clients, (c: Client) => c.id == id);
    }

    method GetClientByUserId(userId: Id) returns (r: Option<Client>)
      ensures r == ClientOfUser(clients, userId)
      ensures r.None? <==> forall c :: c in clients ==> c.userId != userId
      ensures r.Some? ==> r.value in clients && r.value.userId == userId
    {
      r := Sequences.First(clients, (c: Client) => c.userId == userId);
    }

    /** Never fails: products have no unique or referencing column. */
    method CreateProduct(p: NewProduct) returns (r: Product)
      requires Valid()
      modifies this
      ensures Valid()
      ensures !HasProduct(old(products), r.id)
      ensures r == ProductRow(old(next.product), p)
      ensures Db() == old(Db()).(products := old(products) + [r])
      ensures next == old(next).(product := old(next.product) + 1)
    {
      InsertProductValid(Db(), next, p);
      r := ProductRow(next.product, p);
      products := products + [r];
      next := next.(product := next.product + 1);
    }

    method GetProducts() returns (r: seq<Product>)
      ensures r == products
    {
      r := products;
    }

    /** No per-suite filter: a user with a client sees every product. */
    method GetSuiteProducts(userId: Id) returns (r: seq<Product>)
      ensures r == SuiteProductsOf(Db(), userId)
      ensures r == [] || r == products
    {
      var userClient := GetClientByUserId(userId);
      if userClient.None? {
        return [];
      }
      r := GetProducts();
    }

    method CreateCarrier(c: NewCarrier) returns (r: Carrier)
      requires Valid()
      modifies this
      ensures Valid()
      ensures !HasCarrier(old(carriers), r.id)
      ensures r == CarrierRow(old(next.carrier), c)
      ensures Db() == old(Db()).(carriers := old(carriers) + [r])
      ensures next == old(next).(carrier := old(next.carrier) + 1)
    {
      InsertCarrierValid(Db(), next, c);
      r := CarrierRow(next.carrier, c);
      carriers := carriers + [r];
      next := next.(carrier := next.carrier + 1);
    }

    method GetCarriers() returns (r: seq<Carrier>)
      ensures r == carriers
    {
      r := carriers;
    }

    /** Fails, changing nothing, when the client or the carrier does not exist. */
    method CreateShipment(s: NewShipment, now: Timestamp) returns (r: Result<Shipment, DbError>)
      requires Valid()
      modifies this
      ensures Valid()
      ensures r.Err? <==> ShipmentInsertError(old(Db()), s).Some?
      ensures r.Err? ==> r.error == ShipmentInsertError(old(Db()), s).value && Db() == old(Db()) && next == old(next)
      ensures r.Ok? ==> !HasShipment(old(shipments), r.value.id)
      ensures r.Ok? ==>
        && r.value == ShipmentRow(old(next.shipment), s, now)
        && Db() == old(Db()).(shipments := old(shipments) + [r.value])
        && next == old(next).(shipment := old(next.shipment) + 1)
    {
      var e := ShipmentInsertError(Db(), s);
      if e.Some? {
        return Err(e.value);
      }
      InsertShipmentValid(Db(), next, s, now);
      var row := ShipmentRow(next.shipment, s, now);
      shipments := shipments + [row];
      next := next.(shipment := next.shipment + 1);
      r := Ok(row);
    }

    method GetShipments(userId: Id) returns (r: seq<Shipment>)
      ensures r == ShipmentsOf(Db(), userId)
      ensures forall s :: s in r ==> s in shipments
    {
      var userClient := GetClientByUserId(userId);
      if userClient.None? {
        return [];
      }
      r := ShipmentsOfClient(shipments, userClient.value.id);
    }
  }
}
