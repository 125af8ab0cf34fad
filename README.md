# Parcel tracking and wallet ledger

This project is a Dafny model of the server core of a parcel-delivery and wallet
application. It covers the following parts:

- **The tables.** Users, parcels, parcel events (the audit trail), transactions,
  messages and notifications, with their enums, column defaults, unique
  columns and foreign keys.
- **`DatabaseStorage`.** The store that inserts rows, updates matching rows, and
  answers "filter, then newest first" queries.
- **The HTTP handlers.** Handlers that create a parcel, change its status,
  track it by tracking id, list parcels by sender or driver, and record a
  wallet transaction.
- **The create-parcel page.** The customer-side form validator and the request
  body it builds.

Modelling choices:

- **The store.** The store is the class `Storage.DatabaseStorage`. It holds one
  sequence per table and a clock.
- **Inserts.** Every insert stamps its row's `createdAt` with the clock. It
  takes the row's `id` from the decimal text of the same reading, standing in
  for `gen_random_uuid()`. It then advances the clock.
- **Invariant.** `Valid()` states the schema's constraints over all tables:
  - every table the store fills (all but `users`) is oldest first, with ids
    minted from the clock;
  - every table's ids are unique, including the `users` ids the store starts with;
  - `trackingId` and `qrHash` are unique;
  - every foreign key resolves;
  - every money value fits `decimal(10, 2)`.

  Every write preserves `Valid()`.
- **Rejected statements.** A statement the database would reject returns a
  `DbError` and changes nothing.
- **Money.** Money is whole cents (`Cents`).
- **Request bodies.** A request body keeps its raw strings, so that the
  database's enum casts and not-null checks are part of the model.
- **Handler inputs.** The handlers take the clock reading (`Date.now()`), the
  text of `Math.random().toString(36)` and the SHA-256 hex digest function as
  inputs.

The model follows what the code does, not a stricter parcel lifecycle:

- A status update accepts any status from any current status. There is no
  transition graph.
- `deliveredAt` is never written.
- The status write and its event are two separate statements, so a failed
  event insert leaves the new status in place.
- A deposit reads the balance and then writes the sum back, as two steps.
- Transaction amounts are not checked for sign.

Modules: `Results` (Option/Result/Outcome), `Text` (decimal text, JavaScript
`substring`, ASCII upper-casing, JavaScript string length in UTF-16 code units), `Tables` (filter, newest-first insertion
sort, first match), `Schema`, `TrackingIds`, `Storage`, `Routes`,
`CreateParcelPage`.

## Model

| member | source | states |
|---|---|---|
| Schema.StatusPosition | shared/schema.ts:8 | `parcel_status` has exactly eight values, in the declared order pending … cancelled, each at its own place with its declared label |
| Schema.ParcelStatusesDistinct | shared/schema.ts:8 | no status and no status label is listed twice |
| Schema.ParseParcelStatus | shared/schema.ts:8 | the cast to `parcel_status` yields the value whose label is the string, and fails exactly when no status has that label |
| Schema.ParseUserRole | shared/schema.ts:7 | the cast to `user_role` yields the value with that label, and fails when no role has it |
| Schema.ParseTransactionType | shared/schema.ts:10 | the cast to `transaction_type` (deposit, withdrawal, payment, refund, commission) yields the value with that label, and fails when none has it |
| Schema.ParsePaymentMethod | shared/schema.ts:11 | the cast to `payment_method` yields the value with that label, and fails when none has it |
| Schema.NewParcel | shared/schema.ts:76-98 | a stored parcel has the generated id and `createdAt` and the given tracking id and hash; `status` defaults to pending, `isPaid` to false and `photos` to []; `deliveredAt` is null |
| Schema.ParseInsertParcel | shared/schema.ts:317 | the parcel insert schema with the server-generated keys left out: it accepts exactly the bodies that carry every not-null column without a default, with enum labels for method and status, and it passes those fields through |
| Schema.OmittedKeysIgnored | shared/schema.ts:317 | `id`, `createdAt`, `deliveredAt`, `trackingId` and `qrHash` in a body never reach the insert |
| Schema.ParseInsertParcelAsWritten | shared/schema.ts:317 | as declared, the schema also requires `trackingId` and `qrHash` keys and otherwise accepts what the corrected schema accepts |
| TrackingIds.RandomSuffix | server/routes.ts:170 | the random part has at most six characters, none of them a lower-case letter, and a dash only if the random text had one |
| TrackingIds.MintTrackingId | server/routes.ts:170 | a tracking id starts with "ADR-" and is no longer than the prefix, the clock digits, the dash and six characters |
| TrackingIds.ParseMintedTrackingId | server/routes.ts:170 | a minted tracking id splits back into exactly the clock reading and the suffix it was made from |
| TrackingIds.MintedIdsDifferInTime | server/routes.ts:170 | ids minted at different milliseconds differ, whatever their random parts |
| Storage.GetUser | server/storage.ts:81-84 | returns a user with that id, and nothing exactly when no user has it |
| Storage.GetParcel | server/storage.ts:154-157 | returns a parcel with that id, and nothing exactly when no parcel has it |
| Storage.GetParcelByTrackingId | server/storage.ts:159-162 | returns a parcel with that tracking id, and nothing exactly when none has it |
| Storage.GetParcelsBySender | server/storage.ts:164-166 | exactly the parcels of that sender, each as often as in the table, newest first |
| Storage.GetParcelsByDriver | server/storage.ts:168-170 | exactly the parcels whose driver is that user, each as often as in the table, newest first |
| Storage.GetParcelEvents | server/storage.ts:191-193 | exactly the events of that parcel, each as often as in the table, newest first |
| Storage.GetTransactionsByUser | server/storage.ts:216-218 | exactly that user's transactions, each as often as in the table, newest first |
| Storage.GetMessagesBetweenUsers | server/storage.ts:226-233 | exactly the messages either user sent the other, each as often as in the table, newest first |
| Storage.MessagesBetweenSymmetric | server/storage.ts:226-233 | the conversation is the same list whichever user is named first |
| Storage.WithStatus | server/storage.ts:177-183 | the parcels with that id get the status, and the driver only when the driver argument is truthy; every other field and every other parcel is unchanged; an unknown id changes nothing |
| Storage.GetParcelAfterStatusWrite | server/storage.ts:177-183 | after a status write the parcel reads back with exactly the new status (and the new driver when it was truthy) |
| Storage.GetOtherParcelAfterStatusWrite | server/storage.ts:177-183 | a status write leaves every other parcel reading back as before |
| Storage.WithBalance | server/storage.ts:96-98 | the users with that id get the balance, with every other field and every other user unchanged |
| Storage.GetUserAfterBalanceWrite | server/storage.ts:96-98 | after a balance write the user reads back with exactly that balance |
| Storage.GetOtherUserAfterBalanceWrite | server/storage.ts:96-98 | a balance write leaves every other user reading back as before |
| Storage.MarkRead | server/storage.ts:245-247 | the notifications with that id become read, with every other field and row unchanged |
| Storage.MarkReadIdempotent | server/storage.ts:245-247 | marking a notification read twice is the same as marking it once |
| Storage.ParcelInsert | shared/schema.ts:78-95 | a parcel insert succeeds exactly when any `rating` fits the 32-bit `integer` column, its tracking id and QR hash are new and its sender, driver and partners exist, and it then stores the defaulted row |
| Storage.EventInsert | shared/schema.ts:102-112 | an event insert succeeds exactly when actor and role are present, role and status are enum labels, and the parcel and the actor exist, and it stores those values |
| Storage.TransactionInsert | shared/schema.ts:134-144 | a transaction insert succeeds exactly when user, amount and type are present, type and method are enum labels, the amount fits `decimal(10, 2)` and the user exists; `status` defaults to "completed" |
| Storage.MessageInsert | shared/schema.ts:147-155 | a message insert succeeds exactly when sender, receiver and the optional parcel exist; `isRead` defaults to false |
| Storage.NotificationInsert | shared/schema.ts:158-167 | a notification insert succeeds exactly when its user exists; `isRead` defaults to false |
| Storage.StatusWriteError | server/storage.ts:177-183 | a status write fails exactly for a string that is not a status label, or for a truthy driver that is no user while some parcel has the id |
| Storage.BalanceWriteError | shared/schema.ts:23 | a balance write fails exactly when the balance does not fit `decimal(10, 2)` |
| Storage.EventsAfterAppend | server/storage.ts:186-193 | appending the newest event puts it at the head of its parcel's history and leaves every history otherwise as it was |
| Storage.EventsInReverseInsertionOrder | server/storage.ts:191-193 | on a table filled oldest first, a parcel's history is its events in reverse insertion order |
| Storage.StoreFilledKeys | shared/schema.ts:77 | ids minted from strictly increasing clock readings are unique, and the next id to mint is not yet taken |
| Storage.DatabaseStorage.constructor | server/storage.ts:79 | a store over existing users and partners, with every other table empty, satisfies the schema's constraints |
| Storage.DatabaseStorage.CreateParcel | server/storage.ts:172-175 | appends exactly the checked parcel row and advances the clock, or fails and changes nothing; no other table changes |
| Storage.DatabaseStorage.UpdateParcelStatus | server/storage.ts:177-183 | applies the status write to the parcels table alone, or fails and changes nothing |
| Storage.DatabaseStorage.CreateParcelEvent | server/storage.ts:186-189 | the event log only ever grows by one appended row; existing events are never altered |
| Storage.DatabaseStorage.CreateTransaction | server/storage.ts:211-214 | appends exactly the checked transaction row, or fails and changes nothing |
| Storage.DatabaseStorage.UpdateUserBalance | server/storage.ts:96-98 | applies the balance write to the users table alone, or fails with a numeric overflow and changes nothing |
| Storage.DatabaseStorage.CreateMessage | server/storage.ts:221-224 | appends exactly the checked message row, or fails and changes nothing |
| Storage.DatabaseStorage.CreateNotification | server/storage.ts:236-239 | appends exactly the checked notification row, or fails and changes nothing |
| Storage.DatabaseStorage.MarkNotificationAsRead | server/storage.ts:245-247 | applies the mark-read write to the notifications table alone |
| Routes.ParcelInsertFor | server/routes.ts:169-177 | the insert carries the validated columns, the minted tracking id and the hash of that id, whatever the body said |
| Routes.CreatedEvent | server/routes.ts:180-186 | the first event names the new parcel, the sender as actor with role customer, status pending and notes "Parcel created" |
| Routes.StatusEvent | server/routes.ts:236-242 | the status event carries the path's parcel id and the body's status, actor, role and notes |
| Routes.TransactionInsertFor | server/routes.ts:296-304 | the insert carries the body's user, amount, type, method and description, with status "completed" |
| Routes.NoHistoryForFreshParcel | server/routes.ts:173-186 | the id about to be given to a new parcel has no events yet |
| Routes.CreateParcelRoute | server/routes.ts:165-193 | succeeds exactly when the body validates and the insert passes; the new parcel has the minted id and hash, exactly one event is appended (pending, by the sender as customer, "Parcel created") and it is the parcel's whole history; a body without status gives a pending parcel; a failure answers 400 and changes nothing |
| Routes.UpdateStatusRoute | server/routes.ts:229-249 | writes the status with no transition check; on success the parcel's status is the requested one and the newest event of that parcel carries the same status; a failed event insert answers 400 but leaves the status written |
| Routes.TrackParcelRoute | server/routes.ts:213-227 | answers 404 "Parcel not found" exactly when no parcel has the tracking id, otherwise that parcel and its events, each once, as the list of its events in reverse insertion order (newest first) |
| Routes.ParcelsBySenderRoute | server/routes.ts:195-202 | returns the sender's parcels, each once, as the list of them in reverse insertion order (newest first) |
| Routes.ParcelsByDriverRoute | server/routes.ts:204-211 | returns the driver's parcels, each once, as the list of them in reverse insertion order (newest first) |
| Routes.TransactionsByUserRoute | server/routes.ts:283-290 | returns the user's transactions, each once, as the list of them in reverse insertion order (newest first) |
| Routes.DepositedBalance | server/routes.ts:309 | the new balance exceeds the old by exactly the amount |
| Routes.RecordTransactionRoute | server/routes.ts:292-319 | stores a "completed" transaction or answers 400 and changes nothing; only a deposit changes a balance, raising the depositor's by exactly the amount and leaving every other user as before; a sum that overflows answers 400 with the transaction kept |
| Routes.DepositRaisesBalance | server/routes.ts:307-311 | after the deposit's write the depositor's balance is the old balance plus the amount, and every other user reads back as before |
| Text.Utf16LengthAppend | client/src/pages/CreateParcel.tsx:20-22 | the JavaScript length of a concatenation is the sum of the lengths, so with the single-character case the count is fixed for every string |
| Text.Utf16LengthOfChar | client/src/pages/CreateParcel.tsx:20-22 | one character is two code units exactly when it lies outside the Basic Multilingual Plane, one otherwise |
| Text.Utf16Length | client/src/pages/CreateParcel.tsx:20-22 | a string's JavaScript length lies between its character count and twice it, and equals the character count when no character lies outside the Basic Multilingual Plane |
| CreateParcelPage.ParcelFormErrors | client/src/pages/CreateParcel.tsx:19-27 | the form rejects exactly a name shorter than 2 UTF-16 code units, a phone shorter than 9, an empty weight, and a payment method other than wallet or cash on delivery; the partners and the description are optional |
| CreateParcelPage.AstralNameAccepted | client/src/pages/CreateParcel.tsx:20 | a name of one emoji counts as two code units and passes the name check |
| CreateParcelPage.AcceptedFormPaymentMethod | client/src/pages/CreateParcel.tsx:19-27 | an accepted form's payment method is wallet or cash on delivery, and its name, phone and weight meet their minimum lengths |
| CreateParcelPage.BuildCreateRequest | client/src/pages/CreateParcel.tsx:49-58 | without a signed-in user the request fails with "User not authenticated"; otherwise the body carries the form, the user as sender, price "50.00" and `isPaid` false, and no status, tracking id or hash |
| CreateParcelPage.ClientRequestCreatesPendingParcel | client/src/pages/CreateParcel.tsx:49-58 | a validated form posted by a signed-in user passes the corrected insert schema, and the parcel it creates is pending, unpaid, at the flat price, sent by that user and with no driver |
| CreateParcelPage.ClientRequestRejectedAsWritten | client/src/pages/CreateParcel.tsx:49-58 | the insert schema as declared rejects every body the page builds |

## Left out

- Floating-point money: `parseFloat` and `toFixed(2)` become integer cents. An amount with more than two decimals, which PostgreSQL would round, is not modelled.
- Decimal columns `weight`, `distance` and `price` stay text. Their precision limits and number parsing are not modelled.
- Timestamps: `createdAt` is the store's strictly increasing clock, so no two rows share a stamp. The order of rows with equal timestamps is not modelled.
- Concurrency: every handler runs alone, so the lost-update race between two deposits is not modelled.
- A database failure other than a constraint violation is not modelled, including the 500 answers of the read routes. So the read routes always answer.
- Routes.CreateParcelRoute: models the handler over the corrected insert schema (`Schema.ParseInsertParcel`), not the one the code declares, which would answer 400 to every body the page posts; that as-written rejection is shown only at the schema level, by `CreateParcelPage.ClientRequestRejectedAsWritten` (see "## Findings").
- Routes.UpdateStatusRoute: the body's `status` is a string that is present. A body without `status` is not modelled, because it depends on how the query builder treats an undefined value.
- TrackingIds.RandomSuffix: upper-casing covers ASCII letters only, which is all base-36 text holds.
- SHA-256 is a function parameter of the create route, so its digest values are not modelled.
- QR code generation, the WebSocket chat relay, registration and login, and the database connection are foreign calls or I/O.
- Partners, shops, items, orders and repositories are outside the modelled tables. Partners appear only as the set of ids that parcel foreign keys may name.
- `createUser`: the `walletBalance` default of 0.00 is not modelled. Users enter the store through the constructor, each with a balance.
- The page's form state, toasts and navigation are user-interface effects.

## Findings

| source | as written | input that shows it | evidently intended | confidence | as-written member | corrected member |
|---|---|---|---|---|---|---|
| shared/schema.ts:317 | `insertParcelSchema` omits only `id`, `createdAt` and `deliveredAt`. `trackingId` and `qrHash` are not null and have no default, so the schema requires them, but the create route only generates them after parsing. | the body the create-parcel page posts for any signed-in user and valid form. It has no `trackingId` or `qrHash`, so parsing fails and the route answers 400. | the schema also omits `trackingId` and `qrHash`, so the route's generated values fill them | medium, not executed | CreateParcelPage.ClientRequestRejectedAsWritten | Schema.ParseInsertParcel |
