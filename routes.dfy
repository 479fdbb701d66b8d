/**
 * The HTTP API of `registerRoutes`: each handler checks the session
 * (authenticated, and for three POST routes the ADMIN role), then makes
 * exactly one storage call and answers with its result.
 *
 * `Respond` is the status a handler answers with, as a function of the
 * session, the request and the database it runs against; `Handle` runs
 * the handler against a `DatabaseStorage` and is proved to answer
 * `Respond`'s status and to touch the store only on the success branch.
 */
module Routes {
  import opened Common
  import opened Schema
  import opened Storage

  /**
   * The request's session as the authentication layer presents it. The
   * layer's `isAuthenticated()` holds exactly when a user is attached to
   * the request, so the two are one case.
   */
  datatype Session = Anonymous | Authenticated(user: User)

  /** One request per route; path parameters are the parsed numbers, bodies the typed records. */
  datatype Route =
    | GetClient(userId: Id)                    // GET   /api/clients/:userId
    | PatchClient(id: Id, patch: ClientPatch)  // PATCH /api/clients/:id
    | PostClient(client: NewClient)            // POST  /api/clients
    | PostProduct(product: NewProduct)         // POST  /api/products
    | GetProducts                              // GET   /api/products
    | GetSuiteProducts                         // GET   /api/suite-products
    | PostCarrier(carrier: NewCarrier)         // POST  /api/carriers
    | GetCarriers                              // GET   /api/carriers
    | PostShipment(shipment: NewShipment)      // POST  /api/shipments
    | GetShipments                             // GET   /api/shipments

  /**
   * The answer of a handler. `StoreError` is a rejected storage call: the
   * handler does not catch it, so it chooses no status of its own and the
   * error is left to the web framework.
   */
  datatype Status = Ok200 | Created201 | Unauthorized401 | Forbidden403 | NotFound404 | StoreError

  /** The JSON body sent with a 200 or 201 (`res.json(undefined)` for a patch that matched nothing). */
  datatype Body =
    | NoBody
    | ClientJson(client: Option<Client>)
    | ProductJson(product: Product)
    | ProductsJson(products: seq<Product>)
    | CarrierJson(carrier: Carrier)
    | CarriersJson(carriers: seq<Carrier>)
    | ShipmentJson(shipment: Shipment)
    | ShipmentsJson(shipments: seq<Shipment>)

  /** The three routes gated on `!req.isAuthenticated() || req.user.role !== "ADMIN"`. */
  predicate AdminOnly(r: Route) {
    r.PostClient? || r.PostProduct? || r.PostCarrier?
  }

  predicate IsAdmin(s: Session) {
    s.Authenticated? && s.user.role == ADMIN
  }

  /** The status each handler answers with, branch for branch. */
  function Respond(s: Session, r: Route, db: Db): (st: Status)
    // unauthenticated: 401 on every route without the admin gate, 403 on the three with it
    ensures s.Anonymous? && !AdminOnly(r) ==> st == Unauthorized401
    ensures AdminOnly(r) && !IsAdmin(s) ==> st == Forbidden403
    ensures st == Unauthorized401 ==> s.Anonymous? && !AdminOnly(r)
    ensures st == Forbidden403 ==> AdminOnly(r) && !IsAdmin(s)
    // 404 only for a user without a client
    ensures st == NotFound404 <==> r.GetClient? && s.Authenticated? && ClientOfUser(db.clients, r.userId).None?
    // past the gate, only the store can refuse, and only a write
    ensures st == StoreError <==>
      || (r.PatchClient? && s.Authenticated? && ClientUpdateError(db, r.id, r.patch).Some?)
      || (r.PostClient? && IsAdmin(s) && ClientInsertError(db, r.client).Some?)
      || (r.PostShipment? && s.Authenticated? && ShipmentInsertError(db, r.shipment).Some?)
    // 200 on every authenticated read that finds its data, and on an accepted patch
    ensures st == Ok200 <==>
      && s.Authenticated?
      && (|| (r.GetClient? && ClientOfUser(db.clients, r.userId).Some?)
          || (r.PatchClient? && ClientUpdateError(db, r.id, r.patch).None?)
          || r.GetProducts? || r.GetSuiteProducts? || r.GetCarriers? || r.GetShipments?)
    ensures st == Created201 <==>
      || (AdminOnly(r) && IsAdmin(s) && !(r.PostClient? && ClientInsertError(db, r.client).Some?))
      || (r.PostShipment? && s.Authenticated? && ShipmentInsertError(db, r.shipment).None?)
    // the patch route checks authentication only: any role may patch any client
    ensures r.PatchClient? && s.Authenticated? ==>
      st == (if ClientUpdateError(db, r.id, r.patch).Some? then StoreError else Ok200)
  {
    match r
    case GetClient(userId) =>
      if s.Anonymous? then Unauthorized401
      else if ClientOfUser(db.clients, userId).None? then NotFound404
      else Ok200
    case PatchClient(id, patch) =>
      if s.Anonymous? then Unauthorized401
      else if ClientUpdateError(db, id, patch).Some? then StoreError
      else Ok200
    case PostClient(c) =>
      if s.Anonymous? || s.user.role != ADMIN then Forbidden403
      else if ClientInsertError(db, c).Some? then StoreError
      else Created201
    case PostProduct(_) =>
      if s.Anonymous? || s.user.role != ADMIN then Forbidden403 else Created201
    case GetProducts =>
      if s.Anonymous? then Unauthorized401 else Ok200
    case GetSuiteProducts =>
      if s.Anonymous? then Unauthorized401 else Ok200
    case PostCarrier(_) =>
      if s.Anonymous? || s.user.role != ADMIN then Forbidden403 else Created201
    case GetCarriers =>
      if s.Anonymous? then Unauthorized401 else Ok200
    case PostShipment(sh) =>
      if s.Anonymous? then Unauthorized401
      else if ShipmentInsertError(db, sh).Some? then StoreError
      else Created201
    case GetShipments =>
      if s.Anonymous? then Unauthorized401 else Ok200
  }

  /** A request turned away at the gate is turned away whatever the database holds. */
  lemma RejectionIgnoresStore(s: Session, r: Route, db1: Db, db2: Db)
    requires Respond(s, r, db1) == Unauthorized401 || Respond(s, r, db1) == Forbidden403
    ensures Respond(s, r, db2) == Respond(s, r, db1)
  {
  }

  /** A patch whose body sets no column is refused by the store, whether or not the client exists. */
  lemma EmptyPatchRefused(u: User, id: Id, db: Db)
    ensures Respond(Authenticated(u), PatchClient(id, EmptyPatch), db) == StoreError
  {
  }

  /** The patch route answers the same to every authenticated user, whatever the role. */
  lemma PatchIgnoresRole(u1: User, u2: User, id: Id, p: ClientPatch, db: Db)
    ensures Respond(Authenticated(u1), PatchClient(id, p), db) == Respond(Authenticated(u2), PatchClient(id, p), db)
  {
  }

  // ---- The handlers, one per route -------------------------------------------

  method GetClientRoute(store: DatabaseStorage, s: Session, userId: Id) returns (status: Status, body: Body)
    ensures status == Respond(s, GetClient(userId), store.Db())
    ensures status == Ok200 ==> body == ClientJson(ClientOfUser(store.clients, userId)) && body.client.Some?
    ensures status != Ok200 ==> body == NoBody
  {
    if s.Anonymous? {
      return Unauthorized401, NoBody;
    }
    var client := store.GetClientByUserId(userId);
    if client.None? {
      return NotFound404, NoBody;
    }
    status, body := Ok200, ClientJson(client);
  }

  /** Checks authentication only: any signed-in user may patch any client. */
  method PatchClientRoute(store: DatabaseStorage, s: Session, id: Id, patch: ClientPatch) returns (status: Status, body: Body)
    requires store.Valid()
    modifies store
    ensures store.Valid() && store.next == old(store.next)
    ensures status == Respond(s, PatchClient(id, patch), old(store.Db()))
    ensures status != Ok200 ==> body == NoBody && store.Db() == old(store.Db())
    ensures status == Unauthorized401 ==> unchanged(store)
    ensures status == Ok200 ==>
      && store.Db() == old(store.Db()).(clients := PatchWhere(old(store.clients), id, patch))
      && body == ClientJson(ClientById(store.Db(), id))
  {
    if s.Anonymous? {
      return Unauthorized401, NoBody;
    }
    var result := store.UpdateClient(id, patch);
    if result.Err? {
      return StoreError, NoBody;
    }
    status, body := Ok200, ClientJson(result.value);
  }

  method PostClientRoute(store: DatabaseStorage, s: Session, c: NewClient) returns (status: Status, body: Body)
    requires store.Valid()
    modifies store
    ensures store.Valid()
    ensures status == Respond(s, PostClient(c), old(store.Db()))
    ensures status != Created201 ==> body == NoBody && store.Db() == old(store.Db()) && store.next == old(store.next)
    ensures status == Forbidden403 ==> unchanged(store)
    ensures status == Created201 ==>
      var row := ClientRow(old(store.next.client), c);
      && body == ClientJson(Some(row))
      && store.Db() == old(store.Db()).(clients := old(store.clients) + [row])
      && store.next == old(store.next).(client := old(store.next.client) + 1)
  {
    if s.Anonymous? || s.user.role != ADMIN {
      return Forbidden403, NoBody;
    }
    var result := store.CreateClient(c);
    if result.Err? {
      return StoreError, NoBody;
    }
    status, body := Created201, ClientJson(Some(result.value));
  }

  method PostProductRoute(store: DatabaseStorage, s: Session, p: NewProduct) returns (status: Status, body: Body)
    requires store.Valid()
    modifies store
    ensures store.Valid()
    ensures status == Respond(s, PostProduct(p), old(store.Db()))
    ensures status != Created201 ==> body == NoBody && unchanged(store)
    ensures status == Created201 ==>
      var row := ProductRow(old(store.next.product), p);
      && body == ProductJson(row)
      && store.Db() == old(store.Db()).(products := old(store.products) + [row])
      && store.next == old(store.next).(product := old(store.next.product) + 1)
  {
    if s.Anonymous? || s.user.role != ADMIN {
      return Forbidden403, NoBody;
    }
    var product := store.CreateProduct(p);
    status, body := Created201, ProductJson(product);
  }

  method GetProductsRoute(store: DatabaseStorage, s: Session) returns (status: Status, body: Body)
    ensures status == Respond(s, GetProducts, store.Db())
    ensures status == Ok200 ==> body == ProductsJson(store.products)
    ensures status != Ok200 ==> body == NoBody
  {
    if s.Anonymous? {
      return Unauthorized401, NoBody;
    }
    var products := store.GetProducts();
    status, body := Ok200, ProductsJson(products);
  }

  /** Scoped by the session's user id, not by any request parameter. */
  method GetSuiteProductsRoute(store: DatabaseStorage, s: Session) returns (status: Status, body: Body)
    ensures status == Respond(s, GetSuiteProducts, store.Db())
    ensures status == Ok200 ==> body == ProductsJson(SuiteProductsOf(store.Db(), s.user.id))
    ensures status != Ok200 ==> body == NoBody
  {
    if s.Anonymous? {
      return Unauthorized401, NoBody;
    }
    var products := store.GetSuiteProducts(s.user.id);
    status, body := Ok200, ProductsJson(products);
  }

  method PostCarrierRoute(store: DatabaseStorage, s: Session, c: NewCarrier) returns (status: Status, body: Body)
    requires store.Valid()
    modifies store
    ensures store.Valid()
    ensures status == Respond(s, PostCarrier(c), old(store.Db()))
    ensures status != Created201 ==> body == NoBody && unchanged(store)
    ensures status == Created201 ==>
      var row := CarrierRow(old(store.next.carrier), c);
      && body == CarrierJson(row)
      && store.Db() == old(store.Db()).(carriers := old(store.carriers) + [row])
      && store.next == old(store.next).(carrier := old(store.next.carrier) + 1)
  {
    if s.Anonymous? || s.user.role != ADMIN {
      return Forbidden403, NoBody;
    }
    var carrier := store.CreateCarrier(c);
    status, body := Created201, CarrierJson(carrier);
  }

  method GetCarriersRoute(store: DatabaseStorage, s: Session) returns (status: Status, body: Body)
    ensures status == Respond(s, GetCarriers, store.Db())
    ensures status == Ok200 ==> body == CarriersJson(store.carriers)
    ensures status != Ok200 ==> body == NoBody
  {
    if s.Anonymous? {
      return Unauthorized401, NoBody;
    }
    var carriers := store.GetCarriers();
    status, body := Ok200, CarriersJson(carriers);
  }

  /** `now` is the clock value the store's `defaultNow()` reads. */
  method PostShipmentRoute(store: DatabaseStorage, s: Session, sh: NewShipment, now: Timestamp) returns (status: Status, body: Body)
    requires store.Valid()
    modifies store
    ensures store.Valid()
    ensures status == Respond(s, PostShipment(sh), old(store.Db()))
    ensures status != Created201 ==> body == NoBody && store.Db() == old(store.Db()) && store.next == old(store.next)
    ensures status == Unauthorized401 ==> unchanged(store)
    ensures status == Created201 ==>
      var row := ShipmentRow(old(store.next.shipment), sh, now);
      && body == ShipmentJson(row)
      && store.Db() == old(store.Db()).(shipments := old(store.shipments) + [row])
      && store.next == old(store.next).(shipment := old(store.next.shipment) + 1)
  {
    if s.Anonymous? {
      return Unauthorized401, NoBody;
    }
    var result := store.CreateShipment(sh, now);
    if result.Err? {
      return StoreError, NoBody;
    }
    status, body := Created201, ShipmentJson(result.value);
  }

  /** Scoped by the session's user id, not by any request parameter. */
  method GetShipmentsRoute(store: DatabaseStorage, s: Session) returns (status: Status, body: Body)
    ensures status == Respond(s, GetShipments, store.Db())
    ensures status == Ok200 ==> body == ShipmentsJson(ShipmentsOf(store.Db(), s.user.id))
    ensures status != Ok200 ==> body == NoBody
  {
    if s.Anonymous? {
      return Unauthorized401, NoBody;
    }
    var shipments := store.GetShipments(s.user.id);
    status, body := Ok200, ShipmentsJson(shipments);
  }


  // ---- POST, then read back -----------------------------------------------

  /**
   * An administrator's `POST /api/clients`, then `GET /api/clients/:userId` for
   * the same user: the new client is returned when it is the user's first, and
   * an earlier client of that user is returned instead otherwise.
   */
  method PostThenGetClient(store: DatabaseStorage, s: Session, c: NewClient)
    returns (st1: Status, b1: Body, st2: Status, b2: Body)
    requires store.Valid()
    modifies store
    ensures st1 == Created201 && ClientOfUser(old(store.clients), c.userId).None? ==> st2 == Ok200 && b2 == b1
    ensures st1 == Created201 && ClientOfUser(old(store.clients), c.userId).Some? ==>
      st2 == Ok200 && b2 == ClientJson(ClientOfUser(old(store.clients), c.userId)) && b2 != b1
  {
    ghost var before := store.clients;
    ghost var id := store.next.client;
    st1, b1 := PostClientRoute(store, s, c);
    st2, b2 := GetClientRoute(store, s, c.userId);
    if st1 == Created201 {
      if ClientOfUser(before, c.userId).None? {
        NewClientFoundByUser(before, id, c);
      } else {
        var prior := ClientOfUser(before, c.userId).value;
        EarlierClientStillFound(before, ClientRow(id, c), c.userId);
        assert prior in before;
        EarlierClientShadowsNew(before, id, c, prior);
      }
    }
  }

  /** An administrator's `POST /api/carriers`, then `GET /api/carriers`: the new carrier is listed, after every older one. */
  method PostThenListCarriers(store: DatabaseStorage, s: Session, c: NewCarrier)
    returns (st1: Status, b1: Body, st2: Status, b2: Body)
    requires store.Valid()
    modifies store
    ensures st1 == Created201 ==>
      && st2 == Ok200 && b1.CarrierJson?
      && b2 == CarriersJson(old(store.carriers) + [b1.carrier])
      && b1.carrier in b2.carriers
  {
    st1, b1 := PostCarrierRoute(store, s, c);
    st2, b2 := GetCarriersRoute(store, s);
  }
  /**
   * Dispatches a request to its route's handler. `now` is the clock value
   * the store's `defaultNow()` reads.
   */
  method Handle(store: DatabaseStorage, s: Session, r: Route, now: Timestamp) returns (status: Status, body: Body)
    requires store.Valid()
    modifies store
    ensures store.Valid()
    ensures status == Respond(s, r, old(store.Db()))
    // a request turned away makes no storage call
    ensures status == Unauthorized401 || status == Forbidden403 ==> unchanged(store) && body == NoBody
    // only an accepted write changes the store
    ensures status != Created201 && !(r.PatchClient? && status == Ok200) ==>
      store.Db() == old(store.Db()) && store.next == old(store.next)
    ensures status != Ok200 && status != Created201 ==> body == NoBody
    // what each accepted request answers, and what an accepted write leaves in the tables
    ensures r.GetClient? && status == Ok200 ==>
      body == ClientJson(ClientOfUser(store.clients, r.userId)) && body.client.Some?
    ensures r.PatchClient? && status == Ok200 ==>
      && store.Db() == old(store.Db()).(clients := PatchWhere(old(store.clients), r.id, r.patch))
      && body == ClientJson(ClientById(store.Db(), r.id))
    ensures r.PostClient? && status == Created201 ==>
      var row := ClientRow(old(store.next.client), r.client);
      && body == ClientJson(Some(row))
      && store.Db() == old(store.Db()).(clients := old(store.clients) + [row])
      && store.next == old(store.next).(client := old(store.next.client) + 1)
    ensures r.PostProduct? && status == Created201 ==>
      var row := ProductRow(old(store.next.product), r.product);
      && body == ProductJson(row)
      && store.Db() == old(store.Db()).(products := old(store.products) + [row])
      && store.next == old(store.next).(product := old(store.next.product) + 1)
    ensures r.PostCarrier? && status == Created201 ==>
      var row := CarrierRow(old(store.next.carrier), r.carrier);
      && body == CarrierJson(row)
      && store.Db() == old(store.Db()).(carriers := old(store.carriers) + [row])
      && store.next == old(store.next).(carrier := old(store.next.carrier) + 1)
    ensures r.PostShipment? && status == Created201 ==>
      var row := ShipmentRow(old(store.next.shipment), r.shipment, now);
      && body == ShipmentJson(row)
      && store.Db() == old(store.Db()).(shipments := old(store.shipments) + [row])
      && store.next == old(store.next).(shipment := old(store.next.shipment) + 1)
    ensures r.GetProducts? && status == Ok200 ==> body == ProductsJson(store.products)
    ensures r.GetSuiteProducts? && status == Ok200 ==> body == ProductsJson(SuiteProductsOf(store.Db(), s.user.id))
    ensures r.GetCarriers? && status == Ok200 ==> body == CarriersJson(store.carriers)
    ensures r.GetShipments? && status == Ok200 ==> body == ShipmentsJson(ShipmentsOf(store.Db(), s.user.id))
  {
    match r
    case GetClient(userId) => status, body := GetClientRoute(store, s, userId);
    case PatchClient(id, patch) => status, body := PatchClientRoute(store, s, id, patch);
    case PostClient(c) => status, body := PostClientRoute(store, s, c);
    case PostProduct(p) => status, body := PostProductRoute(store, s, p);
    case GetProducts => status, body := GetProductsRoute(store, s);
    case GetSuiteProducts => status, body := GetSuiteProductsRoute(store, s);
    case PostCarrier(c) => status, body := PostCarrierRoute(store, s, c);
    case GetCarriers => status, body := GetCarriersRoute(store, s);
    case PostShipment(sh) => status, body := PostShipmentRoute(store, s, sh, now);
    case GetShipments => status, body := GetShipmentsRoute(store, s);
  }
}
