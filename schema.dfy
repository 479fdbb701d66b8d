/**
 * The relational schema of the package-forwarding application: one record
 * per table row, the insert shapes with their column defaults, and the
 * constraints (primary keys, unique columns, foreign keys) as a
 * well-formedness predicate over a whole database state.
 */
module Schema {
  import opened Common

  /** The `role` enum of `users`; the constructors are the enum's string values. */
  datatype Role = ADMIN | CLIENT

  /** The `status` enum of `shipments`. */
  datatype ShipmentStatus = OPEN | IN_PROGRESS | COMPLETED

  /**
   * A `decimal` column, exactly: `digits` times ten to the power `-scale`.
   * No arithmetic on these columns is part of the application.
   */
  datatype Decimal = Decimal(digits: int, scale: nat)

  const Zero := Decimal(0, 0)

  /** A value of the clock, supplied by the caller (the database's `now()`). */
  type Timestamp = nat

  /** A serial primary key; sequences start at 1. */
  type Id = nat

  datatype Address = Address(
    street: string,
    number: string,
    complement: Option<string>,
    neighborhood: string,
    city: string,
    state: string,
    zipCode: string,
    country: string)

  /** One weight band of a carrier's price table; JSON numbers modelled as exact decimals. */
  datatype WeightPrice = WeightPrice(minWeight: Decimal, maxWeight: Decimal, price: Decimal)

  datatype User = User(id: Id, username: string, password: string, role: Role)

  datatype Client = Client(
    id: Id,
    userId: Id,
    firstName: string,
    middleName: Option<string>,
    lastName: string,
    document: string,
    email: string,
    phone: string,
    suiteId: string,
    addresses: Option<seq<Address>>,
    walletBalance: Decimal)

  datatype Product = Product(id: Id, name: string, description: Option<string>, ncm: string, value: Decimal)

  datatype Carrier = Carrier(
    id: Id,
    name: string,
    phone: string,
    email: string,
    apiKeys: Option<seq<string>>,
    weightPrices: Option<seq<WeightPrice>>)

  datatype Shipment = Shipment(
    id: Id,
    clientId: Id,
    carrierId: Id,
    status: ShipmentStatus,
    trackingCode: Option<string>,
    totalCost: Decimal,
    createdAt: Timestamp)

  datatype ShipmentProduct = ShipmentProduct(id: Id, shipmentId: Id, productId: Id, quantity: int)

  datatype SystemSettings = SystemSettings(
    id: Id,
    productValueTax: Decimal,
    shippingTax: Decimal,
    assistedPurchaseTax: Decimal,
    groupPurchaseTax: Decimal,
    hourlyRate: Decimal)

  // Insert shapes: the id is generated; a nullable column without a default
  // is `Option` (left out means NULL); a column with a default is a `Field`.

  datatype NewUser = NewUser(username: string, password: string, role: Field<Role>)

  datatype NewClient = NewClient(
    userId: Id,
    firstName: string,
    middleName: Option<string>,
    lastName: string,
    document: string,
    email: string,
    phone: string,
    suiteId: string,
    addresses: Field<Option<seq<Address>>>,
    walletBalance: Field<Decimal>)

  datatype NewProduct = NewProduct(name: string, description: Option<string>, ncm: string, value: Decimal)

  datatype NewCarrier = NewCarrier(
    name: string,
    phone: string,
    email: string,
    apiKeys: Field<Option<seq<string>>>,
    weightPrices: Field<Option<seq<WeightPrice>>>)

  datatype NewShipment = NewShipment(
    clientId: Id,
    carrierId: Id,
    status: Field<ShipmentStatus>,
    trackingCode: Option<string>,
    totalCost: Decimal,
    createdAt: Field<Timestamp>)

  /** The columns an update may set on a client; `Omitted` leaves a column as it is. */
  datatype ClientPatch = ClientPatch(
    userId: Field<Id>,
    firstName: Field<string>,
    middleName: Field<Option<string>>,
    lastName: Field<string>,
    document: Field<string>,
    email: Field<string>,
    phone: Field<string>,
    suiteId: Field<string>,
    addresses: Field<Option<seq<Address>>>,
    walletBalance: Field<Decimal>)

  // The rows an insert produces, with the column defaults applied.

  function UserRow(id: Id, u: NewUser): User {
    User(id, u.username, u.password, u.role.Or(CLIENT))
  }

  function ClientRow(id: Id, c: NewClient): Client {
    Client(id, c.userId, c.firstName, c.middleName, c.lastName, c.document, c.email, c.phone,
           c.suiteId, c.addresses.Or(Some([])), c.walletBalance.Or(Zero))
  }

  function ProductRow(id: Id, p: NewProduct): Product {
    Product(id, p.name, p.description, p.ncm, p.value)
  }

  function CarrierRow(id: Id, c: NewCarrier): Carrier {
    Carrier(id, c.name, c.phone, c.email, c.apiKeys.Or(Some([])), c.weightPrices.Or(Some([])))
  }

  /** `now` is the clock value `defaultNow()` takes when `createdAt` is left out. */
  function ShipmentRow(id: Id, s: NewShipment, now: Timestamp): Shipment {
    Shipment(id, s.clientId, s.carrierId, s.status.Or(OPEN), s.trackingCode, s.totalCost, s.createdAt.Or(now))
  }

  /** `UPDATE clients SET <patch>`: the supplied columns overwritten, every other column kept. */
  function ApplyPatch(c: Client, p: ClientPatch): Client {
    Client(c.id, p.userId.Or(c.userId), p.firstName.Or(c.firstName), p.middleName.Or(c.middleName),
           p.lastName.Or(c.lastName), p.document.Or(c.document), p.email.Or(c.email), p.phone.Or(c.phone),
           p.suiteId.Or(c.suiteId), p.addresses.Or(c.addresses), p.walletBalance.Or(c.walletBalance))
  }

  const EmptyPatch := ClientPatch(Omitted, Omitted, Omitted, Omitted, Omitted, Omitted, Omitted, Omitted, Omitted, Omitted)

  /** The whole database: one sequence of rows per table, in table order. */
  datatype Db = Db(
    users: seq<User>,
    clients: seq<Client>,
    products: seq<Product>,
    carriers: seq<Carrier>,
    shipments: seq<Shipment>,
    shipmentProducts: seq<ShipmentProduct>,
    systemSettings: seq<SystemSettings>)

  const EmptyDb := Db([], [], [], [], [], [], [])

  /** No two rows of `s` agree on `key`: a primary key or a unique column. */
  predicate UniqueBy<T, K(==)>(s: seq<T>, key: T -> K) {
    forall i, j :: 0 <= i < j < |s| ==> key(s[i]) != key(s[j])
  }

  predicate HasUser(users: seq<User>, id: Id) { exists u :: u in users && u.id == id }
  predicate HasClient(clients: seq<Client>, id: Id) { exists c :: c in clients && c.id == id }
  predicate HasProduct(products: seq<Product>, id: Id) { exists p :: p in products && p.id == id }
  predicate HasCarrier(carriers: seq<Carrier>, id: Id) { exists c :: c in carriers && c.id == id }
  predicate HasShipment(shipments: seq<Shipment>, id: Id) { exists s :: s in shipments && s.id == id }

  predicate UsernameTaken(users: seq<User>, username: string) { exists u :: u in users && u.username == username }

  /** Some client other than the one whose id is `except` already uses `suiteId`. */
  predicate SuiteIdTaken(clients: seq<Client>, suiteId: string, except: Option<Id>) {
    exists c :: c in clients && c.suiteId == suiteId && except != Some(c.id)
  }

  /** Every primary key is unique within its table. */
  predicate PrimaryKeys(db: Db) {
    && UniqueBy(db.users, (u: User) => u.id)
    && UniqueBy(db.clients, (c: Client) => c.id)
    && UniqueBy(db.products, (p: Product) => p.id)
    && UniqueBy(db.carriers, (c: Carrier) => c.id)
    && UniqueBy(db.shipments, (s: Shipment) => s.id)
    && UniqueBy(db.shipmentProducts, (sp: ShipmentProduct) => sp.id)
    && UniqueBy(db.systemSettings, (st: SystemSettings) => st.id)
  }

  /** The two `.unique()` columns. */
  predicate UniqueColumns(db: Db) {
    && UniqueBy(db.users, (u: User) => u.username)
    && UniqueBy(db.clients, (c: Client) => c.suiteId)
  }

  /** Every `.references(...)` column names an existing row. */
  predicate ForeignKeys(db: Db) {
    && (forall c :: c in db.clients ==> HasUser(db.users, c.userId))
    && (forall s :: s in db.shipments ==> HasClient(db.clients, s.clientId) && HasCarrier(db.carriers, s.carrierId))
    && (forall sp :: sp in db.shipmentProducts ==>
          HasShipment(db.shipments, sp.shipmentId) && HasProduct(db.products, sp.productId))
  }

  /** A database state the schema's constraints admit. */
  predicate Valid(db: Db) {
    PrimaryKeys(db) && UniqueColumns(db) && ForeignKeys(db)
  }

  lemma EmptyDbValid()
    ensures Valid(EmptyDb)
  {
  }

  /** The column defaults of the schema, as the row builders apply them to an insert that leaves them out. */
  lemma InsertDefaults(id: Id, now: Timestamp, u: NewUser, c: NewClient, cr: NewCarrier, s: NewShipment)
    ensures u.role == Omitted ==> UserRow(id, u).role == CLIENT
    ensures c.walletBalance == Omitted ==> ClientRow(id, c).walletBalance == Zero
    ensures c.addresses == Omitted ==> ClientRow(id, c).addresses == Some([])
    ensures cr.apiKeys == Omitted ==> CarrierRow(id, cr).apiKeys == Some([])
    ensures cr.weightPrices == Omitted ==> CarrierRow(id, cr).weightPrices == Some([])
    ensures s.status == Omitted ==> ShipmentRow(id, s, now).status == OPEN
    ensures s.createdAt == Omitted ==> ShipmentRow(id, s, now).createdAt == now
  {
  }
}
