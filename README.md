# Package-forwarding hub: a verified model of its data layer and API gate

This project models the core of a small package-forwarding web application in Dafny:

- the relational schema of its seven tables;
- the storage gateway `DatabaseStorage`, which inserts, updates and queries those tables;
- the HTTP handlers of `registerRoutes`, which gate every request on the session and then make one storage call;
- two derivations in the browser client: the role filter of the sidebar navigation, and the counts, chart and recent-shipments table of the admin dashboard.

The modules follow the program's files:

- `Common` holds `Option`, `Result`, and `Field` (a column an insert or a patch either supplies or leaves out).
- `Sequences` holds the array operations the code relies on: `filter`, `slice(0, n)`, and taking the first row of a query result.
- `Schema` holds the row types, the enums, the column defaults as row builders, and the predicate `Valid` over a whole database. `Valid` requires unique primary keys, unique `username` and `suite_id`, and every foreign key naming an existing row.
- `Storage` gives, as functions over a database value, what each query returns and when the store refuses a statement. Its class `DatabaseStorage` holds one sequence per table plus the serial counters. Every method is proved against those functions, and every write is proved to keep `Valid`.
- `Routes` has `Respond`, the status each handler answers as a pure function of session, request and database. It also has one handler method per route and `Handle`, which dispatches to them. Each handler is proved to answer `Respond`'s status and to touch the store only on its success branch.
- `Navigation` and `AdminDashboard` model the two client pages.

A shipment's `status` and `createdAt` are column defaults only (shared/schema.ts:49, 52; server/storage.ts:128-131). A request body that supplies a `status` string has it stored as given. `createdAt` is a timestamp column in date mode, which takes a `Date`; a JSON body can carry only a string, so a body with `createdAt` cannot reach the table. No storage method or route updates a shipment.

The dashboard's counts are checked against an independent count. `AdminDashboard.Statuses` lists every shipment's status, and `AdminDashboard.StatusCount` is the number of times a status occurs in that list, as a multiset. The page itself computes each count with `filter(...).length`, and the lemmas below prove the two agree. `Statuses` and `StatusCount` carry no contract of their own. `AdminDashboard.StatusesCons` and `Storage.EarlierClientStillFound` are proof helpers about the model's own definitions.

## Model

| member | source | states |
|---|---|---|
| Schema.PrimaryKeys | shared/schema.ts:8-63 | Definition, no contract: every table's `id` is unique within the table (`.primaryKey()`) |
| Schema.UniqueColumns | shared/schema.ts:9-23 | Definition, no contract: no two users share a username, and no two clients share a suite id (`.unique()`) |
| Schema.ForeignKeys | shared/schema.ts:16-58 | Definition, no contract: every `user_id`, `client_id`, `carrier_id`, `shipment_id` and `product_id` names an existing row (`.references()`) |
| Schema.Valid | shared/schema.ts:7-69 | Definition, no contract: the database satisfies all three kinds of constraint |
| Schema.UserRow | shared/schema.ts:7-12 | Definition, no contract: the inserted user row, with role CLIENT when none is given; its defaults are stated by `InsertDefaults` |
| Schema.ClientRow | shared/schema.ts:14-26 | Definition, no contract: the inserted client row, with empty addresses and wallet balance 0 by default |
| Schema.ProductRow | shared/schema.ts:28-34 | Definition, no contract: the inserted product row |
| Schema.CarrierRow | shared/schema.ts:36-43 | Definition, no contract: the inserted carrier row, with empty apiKeys and weightPrices by default |
| Schema.ShipmentRow | shared/schema.ts:45-53 | Definition, no contract: the inserted shipment row, with status OPEN and createdAt the current time by default |
| Schema.ApplyPatch | server/storage.ts:84 | Definition, no contract: `.set(client)` overwrites each supplied column and keeps the others and the id |
| Schema.InsertDefaults | shared/schema.ts:11-52 | Every column default applies to an insert that omits the column: role CLIENT, walletBalance 0, empty addresses, empty apiKeys and weightPrices, status OPEN, createdAt the current time |
| Schema.EmptyDbValid | shared/schema.ts:7-69 | The empty database satisfies every key, unique and reference constraint |
| Sequences.Filter | client/src/components/layouts/dashboard-layout.tsx:61-63 | Definition, no contract: `Array.prototype.filter`; its properties are the four lemmas below |
| Sequences.FilterMembers | client/src/components/layouts/dashboard-layout.tsx:61-63 | `filter` keeps an element exactly when it is in the input and satisfies the predicate, and never lengthens the list |
| Sequences.FilterCounts | client/src/components/layouts/dashboard-layout.tsx:61-63 | Each element satisfying the predicate is kept as many times as it occurs; the others are dropped |
| Sequences.FilterKeepsOrder | client/src/components/layouts/dashboard-layout.tsx:61-63 | The result of `filter` is a subsequence of its input |
| Sequences.FilterKeepsAll | client/src/components/layouts/dashboard-layout.tsx:61-63 | Filtering with a predicate that holds everywhere returns the whole input |
| Sequences.First | server/storage.ts:95-98 | The first row of a query: absent exactly when no row matches, otherwise a matching row with no match before it |
| Sequences.Prefix | client/src/pages/admin/dashboard.tsx:128 | `slice(0, n)` has min(n, length) elements, equal to the leading ones |
| Storage.UserById | server/storage.ts:61-64 | Returns a user with that id, absent exactly when there is none; under the constraints the match is unique |
| Storage.UserByUsername | server/storage.ts:66-69 | Returns a user with that username, absent exactly when the name is free; under the constraints the match is unique |
| Storage.ClientById | server/storage.ts:90-93 | Returns a client with that id, absent exactly when there is none; under the constraints the match is unique |
| Storage.ClientOfUser | server/storage.ts:95-98 | Returns the earliest client whose userId matches, absent exactly when none does |
| Storage.ShipmentsOfClient | server/storage.ts:139-142 | Returns the shipments with that clientId, each as many times as it occurs in the table and none other, in table order |
| Storage.SuiteProductsOf | server/storage.ts:109-117 | Empty when no client row has the user's id. Every product, with no per-suite filter, when some client row has it. Empty exactly when the user has no client or there are no products |
| Storage.ShipmentsOf | server/storage.ts:133-143 | Empty when the user has no client. Otherwise the shipments of that client, each as many times as it occurs in the table and none other, in table order |
| Storage.UserInsertError | server/storage.ts:71-74 | Definition, no contract: the insert is refused with a `username` unique violation exactly when the name is taken |
| Storage.ClientInsertError | server/storage.ts:76-79 | Definition, no contract: refused on a taken `suite_id`, otherwise refused when `user_id` names no user |
| Storage.ShipmentInsertError | server/storage.ts:128-131 | Definition, no contract: refused when `client_id` names no client, otherwise when `carrier_id` names no carrier |
| Storage.ClientUpdateError | server/storage.ts:81-88 | Definition, no contract: an update that sets no column is refused first (`NoValuesToSet`), whether or not a row matches. Otherwise an update that matches a row is refused when its suite id is taken by another client, or else when its user id names no user |
| Storage.PatchWhere | server/storage.ts:81-88 | An update keeps the table's length and every row's id |
| Storage.NewClientFoundByUser | server/storage.ts:76-98 | After inserting a user's first client, the lookup by that user id returns exactly the new row |
| Storage.EarlierClientShadowsNew | server/storage.ts:76-98 | When the user already has a client and the new id is fresh, the lookup by that user id does not return the new row |
| Storage.EarlierClientStillFound | server/storage.ts:95-98 | Appending any row leaves the lookup of a user who already had a client unchanged |
| Storage.ClientInsertErrorOnePerUser | shared/schema.ts:90-95 | Corrected insert: accepted exactly when the code's insert is accepted and the user has no client yet |
| Storage.OnePerUserPostThenGet | shared/schema.ts:90-95 | Under the corrected insert, every accepted client is what the lookup by its user id then returns |
| Storage.InsertUserValid | server/storage.ts:71-74 | Inserting a user whose username is free, with the next serial id, keeps every constraint and keeps the serials ahead |
| Storage.InsertClientValid | server/storage.ts:76-79 | Inserting a client with a free suite id and an existing user keeps every constraint |
| Storage.InsertProductValid | server/storage.ts:100-103 | Inserting a product keeps every constraint |
| Storage.InsertCarrierValid | server/storage.ts:119-122 | Inserting a carrier keeps every constraint |
| Storage.InsertShipmentValid | server/storage.ts:128-131 | Inserting a shipment whose client and carrier exist keeps every constraint |
| Storage.UpdateClientValid | server/storage.ts:81-88 | An update the store accepts keeps every constraint and the serials |
| Storage.PatchKeepsRowBounds | server/storage.ts:81-88 | After an accepted update every client's id is still below its serial and its userId still names a user |
| Storage.PatchKeepsSuiteIdsUnique | server/storage.ts:81-88 | An update that passed the suite-id check leaves suite ids unique |
| Storage.PatchKeepsClientIds | server/storage.ts:81-88 | An update keeps client ids unique and every shipment's client present |
| Storage.PatchedRow | server/storage.ts:81-88 | With unique ids an update rewrites at most one row; reading it back gives that row with the patch applied, and absent exactly when no client has the id |
| Storage.DatabaseStorage.constructor | server/storage.ts:51-59 | A new store is empty, valid and has every serial at 1. It stands for a freshly migrated database; the source's constructor only builds the session store. Every other method requires only `Valid()`, so any valid starting state is covered |
| Storage.DatabaseStorage.GetUser | server/storage.ts:61-64 | Returns `UserById` on the current tables: a row with that id, absent exactly when none exists; changes nothing |
| Storage.DatabaseStorage.GetUserByUsername | server/storage.ts:66-69 | Returns `UserByUsername`: a row with that username, absent exactly when the name is free; changes nothing |
| Storage.DatabaseStorage.CreateUser | server/storage.ts:71-74 | Fails with a username unique violation, changing nothing, exactly when the name is taken. Otherwise appends exactly one row with the next fresh id and defaults applied, returns it, leaves every other table unchanged and keeps the constraints |
| Storage.DatabaseStorage.CreateClient | server/storage.ts:76-79 | Fails, changing nothing, exactly when the suite id is taken or the user does not exist. Otherwise appends exactly one row with a fresh id and returns it; other tables unchanged |
| Storage.DatabaseStorage.UpdateClient | server/storage.ts:81-88 | Fails, changing nothing, exactly when the update sets no column or breaks the suite-id or user reference constraint. Returns absent, changing nothing, exactly when no client has the id and the update sets some column. Otherwise only the row with that id changes, to the patched row, which is returned |
| Storage.DatabaseStorage.GetClient | server/storage.ts:90-93 | Returns `ClientById`: the row with that id, absent exactly when none exists; changes nothing |
| Storage.DatabaseStorage.GetClientByUserId | server/storage.ts:95-98 | Returns `ClientOfUser`: a client of that user, absent exactly when none exists; changes nothing |
| Storage.DatabaseStorage.CreateProduct | server/storage.ts:100-103 | Always succeeds: appends exactly one row with a fresh id, returns it, other tables unchanged |
| Storage.DatabaseStorage.GetProducts | server/storage.ts:105-107 | Returns the whole products table; changes nothing |
| Storage.DatabaseStorage.GetSuiteProducts | server/storage.ts:109-117 | Returns `SuiteProductsOf`: empty or the whole products table; changes nothing |
| Storage.DatabaseStorage.CreateCarrier | server/storage.ts:119-122 | Always succeeds: appends exactly one row with a fresh id and empty lists by default, returns it, other tables unchanged |
| Storage.DatabaseStorage.GetCarriers | server/storage.ts:124-126 | Returns the whole carriers table; changes nothing |
| Storage.DatabaseStorage.CreateShipment | server/storage.ts:128-131 | Fails, changing nothing, exactly when the client or carrier does not exist. Otherwise appends exactly one row with a fresh id and returns it; other tables unchanged |
| Storage.DatabaseStorage.GetShipments | server/storage.ts:133-143 | Returns `ShipmentsOf`, every row of which is in the shipments table; changes nothing |
| Routes.AdminOnly | server/routes.ts:32-69 | Definition, no contract: the three POST routes gated on the ADMIN role |
| Routes.Respond | server/routes.ts:12-98 | 401 exactly for an anonymous session on a route without the admin gate. 403 exactly on the three admin POSTs for a caller who is anonymous or not ADMIN. 404 exactly for a user with no client on GET /api/clients/:userId. A store error exactly on an accepted write the store refuses. 201 exactly on an accepted POST the store takes. 200 exactly on an authenticated read that finds its data, or an authenticated patch the store accepts. PATCH depends only on authentication and the store |
| Routes.RejectionIgnoresStore | server/routes.ts:13-15 | A request refused with 401 or 403 is refused the same way whatever the database holds |
| Routes.EmptyPatchRefused | server/routes.ts:23-28 | A patch whose body sets no column answers a store error, whether or not the client exists |
| Routes.PatchIgnoresRole | server/routes.ts:23-28 | The patch route answers the same to every authenticated user, of either role |
| Routes.GetClientRoute | server/routes.ts:12-21 | Answers `Respond`'s status; on 200 the body is the user's client; otherwise no body |
| Routes.PatchClientRoute | server/routes.ts:23-29 | Answers `Respond`'s status. 401 leaves the store untouched. On 200 only the patched client changes and the body is the updated row, or absent when no client has the id |
| Routes.PostClientRoute | server/routes.ts:31-37 | Answers `Respond`'s status. 403 leaves the store untouched. On 201 the body is exactly the row `createClient` appended. On 201 the client serial advances by one and no other serial changes |
| Routes.PostProductRoute | server/routes.ts:40-46 | Answers `Respond`'s status. 403 leaves the store untouched. On 201 the body is exactly the appended product. On 201 the product serial advances by one and no other serial changes |
| Routes.GetProductsRoute | server/routes.ts:48-54 | Answers `Respond`'s status; on 200 the body is every product |
| Routes.GetSuiteProductsRoute | server/routes.ts:57-63 | Answers `Respond`'s status; on 200 the body is the suite products of the session user's id |
| Routes.PostCarrierRoute | server/routes.ts:66-72 | Answers `Respond`'s status. 403 leaves the store untouched. On 201 the body is exactly the appended carrier. On 201 the carrier serial advances by one and no other serial changes |
| Routes.GetCarriersRoute | server/routes.ts:74-80 | Answers `Respond`'s status; on 200 the body is every carrier |
| Routes.PostShipmentRoute | server/routes.ts:84-90 | Answers `Respond`'s status. 401 leaves the store untouched. On 201 the body is exactly the appended shipment. On 201 the shipment serial advances by one and no other serial changes |
| Routes.GetShipmentsRoute | server/routes.ts:92-98 | Answers `Respond`'s status; on 200 the body is the shipments of the session user's id |
| Routes.Handle | server/routes.ts:8-98 | Every request answers `Respond`'s status and keeps the store valid. A 401 or 403 makes no storage call, and only a 200 or 201 sends a body. Only an accepted write changes the store. For each route, a success answers the row or query result named in that route's row above. An accepted PATCH changes only the clients table and answers the patched row. An accepted POST appends the new row to its table, answers it and advances that table's serial |
| Routes.PostThenGetClient | server/routes.ts:12-37 | An admin POST of a user's first client, then GET by that user id, answers 200 with the posted client. When the user already had a client, the GET answers 200 with the earlier client, not the posted one |
| Routes.PostThenListCarriers | server/routes.ts:66-80 | An accepted carrier POST, then a GET of the carrier list, answers 200 with the old list followed by the posted carrier |
| Navigation.Items | client/src/components/layouts/dashboard-layout.tsx:22-59 | Definition: the six links in display order, Products and Settings admin-only |
| Navigation.ShownTo | client/src/components/layouts/dashboard-layout.tsx:62 | Definition, no contract: the filter's test: a link is kept when it is not admin-only or the user's role is ADMIN |
| Navigation.FilteredNavigation | client/src/components/layouts/dashboard-layout.tsx:61-63 | A link is shown exactly when it is in the table and is not admin-only or the user is ADMIN; the shown links keep the table's order |
| Navigation.FilterKeepsFourOfSix | client/src/components/layouts/dashboard-layout.tsx:61-63 | Filtering six links kept, dropped, kept, kept, kept, dropped leaves the four kept ones in order |
| Navigation.AdminSeesAll | client/src/components/layouts/dashboard-layout.tsx:22-63 | An ADMIN sees all six links in table order |
| Navigation.NonAdminSeesFour | client/src/components/layouts/dashboard-layout.tsx:22-63 | A CLIENT, or nobody, sees exactly Dashboard, Shipments, Profile and Wallet, and never Products or Settings |
| AdminDashboard.WithStatus | client/src/pages/admin/dashboard.tsx:77-79 | Definition, no contract: `shipments.filter(s => s.status === st)` |
| AdminDashboard.NotCompleted | client/src/pages/admin/dashboard.tsx:61 | Definition, no contract: `shipments.filter(s => s.status !== "COMPLETED")` |
| AdminDashboard.LengthOrZero | client/src/pages/admin/dashboard.tsx:56-66 | Definition, no contract: `xs?.length` with 0 as fallback: the length, or 0 without data |
| AdminDashboard.WithStatusCounts | client/src/pages/admin/dashboard.tsx:77-79 | Filtering by a status keeps exactly as many shipments as have that status |
| AdminDashboard.StatusFiltersPartition | client/src/pages/admin/dashboard.tsx:77-79 | The three per-status filters together have as many elements as the list |
| AdminDashboard.NotCompletedIsOpenOrInProgress | client/src/pages/admin/dashboard.tsx:61 | The not-COMPLETED filter has as many elements as the OPEN and IN_PROGRESS filters together |
| AdminDashboard.StatsOf | client/src/pages/admin/dashboard.tsx:53-69 | Total clients and products are the list lengths, or 0 without data. Active shipments is 0 without data, otherwise the OPEN count plus the IN_PROGRESS count, which is the total minus the COMPLETED count |
| AdminDashboard.ChartOf | client/src/pages/admin/dashboard.tsx:71-88 | All zeros without data. Otherwise the exact OPEN, IN_PROGRESS and COMPLETED counts, which sum to the number of shipments |
| AdminDashboard.RecentOf | client/src/pages/admin/dashboard.tsx:125-131 | "No shipments found" exactly when there is no data or it is empty; otherwise the first min(5, n) shipments in order |
| AdminDashboard.PageOf | client/src/pages/admin/dashboard.tsx:41-51 | A spinner exactly when any of the three queries is loading; otherwise the stat cards, the chart and the recent table of the fetched data |
| AdminDashboard.ActiveIsOpenPlusInProgress | client/src/pages/admin/dashboard.tsx:61-78 | The active-shipments card equals the first two bars of the chart |

## Left out

- The Postgres pool, the drizzle query builder and the session store (server/storage.ts:17-21, 52-59): tables are in-memory sequences. Without ORDER BY the database promises no row order; an UPDATE writes a new row version, so a scan may return the patched client after the others. The model picks one order the database may use: table order, with a patched row kept in place. The earliest client of a user (`ClientOfUser`) and the shipments "in table order" (`ShipmentsOf`) are relative to that chosen order.
- Authentication (`setupAuth`, password hashing, sessions) is not part of this model. The session is an input: anonymous, or a signed-in user.
- The zod insert schemas (shared/schema.ts:118-124). They are not applied by any route, so request bodies are the typed insert records `NewUser`, `NewClient` and so on. A body that is not such a record is out of scope. In particular, `text(..., { enum })` (shared/schema.ts:11, 49) adds no database check, and only these typed bodies guarantee that `Role` and `ShipmentStatus` take one of their listed values. The dashboard's "three counts sum to the total" rests on that.
- A request body that supplies an explicit `id` column, or `null` for a NOT NULL column, is not modelled: bodies carry only the non-id columns and nullable columns are `Option`.
- Storage.DatabaseStorage.CreateClient, Storage.DatabaseStorage.UpdateClient, Storage.DatabaseStorage.CreateShipment: when a statement breaks two constraints, the model fixes which one is reported. For client inserts and updates, `suite_id` is reported before `user_id`; for shipments, `client_id` before `carrier_id`. Which one the database reports depends on the order in which it checks constraints. Only the reported column depends on this order; whether the statement is refused does not.
- Storage.DatabaseStorage.CreateUser, Storage.DatabaseStorage.CreateClient, Storage.DatabaseStorage.CreateShipment: a refused insert leaves the serial counter where it was. Postgres consumes a sequence value on a unique or foreign-key failure too, so after a refused insert the source hands out a later id than the model. The model promises only that each id is fresh, which holds either way.
- A handler whose storage call is refused does not catch the error, and the framework's answer to it is not part of this model. It appears as the status `StoreError` with no body.
- Ids are unbounded naturals. A `serial` column is a 32-bit integer whose sequence runs out at 2^31 - 1, after which the source's inserts fail; the model never runs out of ids.
- `parseInt` of a non-numeric path parameter (NaN) is not modelled: path parameters are naturals.
- Concurrent requests are not modelled: requests are sequential calls on one store.
- Rendering, icons, styling, forms and date or number formatting in the client are left out; only the values the pages derive are modelled.
- Carrier weight-band pricing, tax rates and wallet arithmetic are left out: the code only stores these fields and computes nothing from them.
- Decimal columns are exact `Decimal(digits, scale)` values that are stored and returned, never computed with. JSON numbers in `weightPrices` are modelled the same way.
- The `/api/clients` list the admin dashboard fetches is served by no route in server/routes.ts. The model treats it as a query input of the page.
- The `products` list that a shipment request may carry is not an insert column, and no `shipment_products` row is created from it. The model's shipment body has no such field.
- The table relations (shared/schema.ts:90-115) only describe joins, and no query uses them. The references they follow are the foreign keys in `Valid`.
- NewShipment: its `createdAt` field's `Given` case stands for a `Date` value. No request body can carry one, since JSON has no date type and drizzle's date-mode timestamp calls `toISOString` on the value, which a string does not have. Through the routes, only the `Omitted` case is reachable.

## Findings

| source | as written | input that shows it | evidently intended | confidence | as-written member | corrected member |
|---|---|---|---|---|---|---|
| shared/schema.ts:16 | `clients.user_id` has no unique constraint, and `getClientByUserId` returns the first matching row (server/storage.ts:96), so an admin may create a second client for one user | A user with one client row; an admin POSTs a second client with that `userId`: the insert succeeds, and `GET /api/clients/:userId` answers the earlier client, never the new one | `userRelations` declares one client per user (shared/schema.ts:90-95), so `user_id` unique, refusing the second insert | medium, not executed | Storage.EarlierClientShadowsNew | Storage.OnePerUserPostThenGet |

The rest of the model follows the code as written: `Storage.ClientInsertError` and `Routes.Respond` accept the second client. `Storage.ClientInsertErrorOnePerUser` states the corrected insert and `Storage.OnePerUserPostThenGet` proves the round trip for it.
