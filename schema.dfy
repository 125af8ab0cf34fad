/** The tables of the parcel and wallet ledger: their enums, their rows, the
    defaults a row takes when an insert omits a column, and the insert schema
    that validates a request body before it becomes a parcel insert. */
module Schema {
  import opened Results

  /** Primary and foreign keys (`varchar` columns). */
  type Id = string

  /** Money in hundredths: `decimal(10, 2)` columns hold whole cents. */
  type Cents = int

  /** `decimal(10, 2)` holds values below 10^8 in magnitude, so below 10^10 cents. */
  const MoneyBound: int := 10_000_000_000

  predicate FitsMoney(c: Cents)
  {
    -MoneyBound < c < MoneyBound
  }

  /** An `integer` column holds a 32-bit signed value. */
  predicate FitsInteger(n: int)
  {
    -0x8000_0000 <= n < 0x8000_0000
  }

  // ---------------------------------------------------------------- enums

  datatype UserRole = Customer | Partner | Driver | Personnel | Admin | Guest

  function UserRoleLabel(r: UserRole): string
  {
    match r
    case Customer => "customer"
    case Partner => "partner"
    case Driver => "driver"
    case Personnel => "personnel"
    case Admin => "admin"
    case Guest => "guest"
  }

  /** The database's cast of a string to `user_role`. */
  function ParseUserRole(s: string): (r: Option<UserRole>)
    ensures r.Some? ==> UserRoleLabel(r.value) == s
    ensures r.None? ==> forall role :: UserRoleLabel(role) != s
  {
    if s == "customer" then Some(Customer)
    else if s == "partner" then Some(Partner)
    else if s == "driver" then Some(Driver)
    else if s == "personnel" then Some(Personnel)
    else if s == "admin" then Some(Admin)
    else if s == "guest" then Some(Guest)
    else None
  }

  datatype ParcelStatus =
    | Pending | PickedUp | InTransit | AtHub | OutForDelivery | Delivered | Failed | Cancelled

  /** The values of `parcel_status` in declaration order, which is also the
      order PostgreSQL sorts them in. */
  const ParcelStatuses: seq<ParcelStatus> :=
    [Pending, PickedUp, InTransit, AtHub, OutForDelivery, Delivered, Failed, Cancelled]

  const ParcelStatusLabels: seq<string> :=
    ["pending", "picked_up", "in_transit", "at_hub", "out_for_delivery", "delivered", "failed", "cancelled"]

  function ParcelStatusLabel(s: ParcelStatus): string
  {
    match s
    case Pending => "pending"
    case PickedUp => "picked_up"
    case InTransit => "in_transit"
    case AtHub => "at_hub"
    case OutForDelivery => "out_for_delivery"
    case Delivered => "delivered"
    case Failed => "failed"
    case Cancelled => "cancelled"
  }

  /** Where a status stands in the enum: each of the eight values has its own
      place, and its label is the one declared there. */
  function StatusPosition(s: ParcelStatus): (i: nat)
    ensures i < |ParcelStatuses| == |ParcelStatusLabels| == 8
    ensures ParcelStatuses[i] == s && ParcelStatusLabels[i] == ParcelStatusLabel(s)
  {
    match s
    case Pending => 0
    case PickedUp => 1
    case InTransit => 2
    case AtHub => 3
    case OutForDelivery => 4
    case Delivered => 5
    case Failed => 6
    case Cancelled => 7
  }

  /** The enum lists no value twice. */
  lemma ParcelStatusesDistinct()
    ensures forall i, j :: 0 <= i < j < |ParcelStatuses| ==> ParcelStatuses[i] != ParcelStatuses[j]
    ensures forall i, j :: 0 <= i < j < |ParcelStatusLabels| ==> ParcelStatusLabels[i] != ParcelStatusLabels[j]
  {
  }

  /** The database's cast of a string to `parcel_status`. */
  function ParseParcelStatus(s: string): (r: Option<ParcelStatus>)
    ensures r.Some? ==> ParcelStatusLabel(r.value) == s
    ensures r.None? ==> forall st :: ParcelStatusLabel(st) != s
  {
    if s == "pending" then Some(Pending)
    else if s == "picked_up" then Some(PickedUp)
    else if s == "in_transit" then Some(InTransit)
    else if s == "at_hub" then Some(AtHub)
    else if s == "out_for_delivery" then Some(OutForDelivery)
    else if s == "delivered" then Some(Delivered)
    else if s == "failed" then Some(Failed)
    else if s == "cancelled" then Some(Cancelled)
    else None
  }

  datatype TransactionType = Deposit | Withdrawal | Payment | Refund | Commission

  function TransactionTypeLabel(t: TransactionType): string
  {
    match t
    case Deposit => "deposit"
    case Withdrawal => "withdrawal"
    case Payment => "payment"
    case Refund => "refund"
    case Commission => "commission"
  }

  /** The database's cast of a string to `transaction_type`. */
  function ParseTransactionType(s: string): (r: Option<TransactionType>)
    ensures r.Some? ==> TransactionTypeLabel(r.value) == s
    ensures r.None? ==> forall t :: TransactionTypeLabel(t) != s
  {
    if s == "deposit" then Some(Deposit)
    else if s == "withdrawal" then Some(Withdrawal)
    else if s == "payment" then Some(Payment)
    else if s == "refund" then Some(Refund)
    else if s == "commission" then Some(Commission)
    else None
  }

  datatype PaymentMethod = Wallet | CashOnDelivery | Telebirr | Chapa | Arifpay

  function PaymentMethodLabel(m: PaymentMethod): string
  {
    match m
    case Wallet => "wallet"
    case CashOnDelivery => "cash_on_delivery"
    case Telebirr => "telebirr"
    case Chapa => "chapa"
    case Arifpay => "arifpay"
  }

  /** The cast of a string to `payment_method`. */
  function ParsePaymentMethod(s: string): (r: Option<PaymentMethod>)
    ensures r.Some? ==> PaymentMethodLabel(r.value) == s
    ensures r.None? ==> forall m :: PaymentMethodLabel(m) != s
  {
    if s == "wallet" then Some(Wallet)
    else if s == "cash_on_delivery" then Some(CashOnDelivery)
    else if s == "telebirr" then Some(Telebirr)
    else if s == "chapa" then Some(Chapa)
    else if s == "arifpay" then Some(Arifpay)
    else None
  }

  // ---------------------------------------------------------------- rows

  /** A row of `users` (the columns this model reads or writes). */
  datatype User = User(id: Id, email: string, name: string, role: UserRole, walletBalance: Cents)

  /** A row of `parcels`. `createdAt` is the store's clock at insert time. */
  datatype Parcel = Parcel(
    id: Id,
    trackingId: string,
    qrHash: string,
    senderId: Id,
    recipientName: string,
    recipientPhone: string,
    pickupPartnerId: Option<Id>,
    dropoffPartnerId: Option<Id>,
    driverId: Option<Id>,
    status: ParcelStatus,
    weight: string,
    distance: Option<string>,
    price: string,
    paymentMethod: PaymentMethod,
    isPaid: bool,
    description: Option<string>,
    photos: seq<string>,
    deliveryProof: Option<string>,
    rating: Option<int>,
    review: Option<string>,
    createdAt: nat,
    deliveredAt: Option<nat>)

  /** A row of `parcel_events`. */
  datatype ParcelEvent = ParcelEvent(
    id: Id,
    parcelId: Id,
    actorId: Id,
    actorRole: UserRole,
    status: ParcelStatus,
    location: Option<string>,
    notes: Option<string>,
    photo: Option<string>,
    createdAt: nat)

  /** A row of `transactions`. `status` is free text. */
  datatype Transaction = Transaction(
    id: Id,
    userId: Id,
    amount: Cents,
    txType: TransactionType,
    txMethod: Option<PaymentMethod>,
    status: string,
    reference: Option<string>,
    description: Option<string>,
    createdAt: nat)

  /** A row of `messages`. */
  datatype Message = Message(
    id: Id, senderId: Id, receiverId: Id, parcelId: Option<Id>, text: string, isRead: bool, createdAt: nat)

  /** A row of `notifications`. */
  datatype Notification = Notification(
    id: Id, userId: Id, title: string, body: string, kind: Option<string>,
    referenceId: Option<Id>, isRead: bool, createdAt: nat)

  // ---------------------------------------------------------------- inserts

  /** The columns of a parcel insert other than `trackingId` and `qrHash`,
      already validated: `None` stands for a column the insert leaves out. */
  datatype ParcelData = ParcelData(
    senderId: Id,
    recipientName: string,
    recipientPhone: string,
    pickupPartnerId: Option<Id>,
    dropoffPartnerId: Option<Id>,
    driverId: Option<Id>,
    status: Option<ParcelStatus>,
    weight: string,
    distance: Option<string>,
    price: string,
    paymentMethod: PaymentMethod,
    isPaid: Option<bool>,
    description: Option<string>,
    photos: Option<seq<string>>,
    deliveryProof: Option<string>,
    rating: Option<int>,
    review: Option<string>)

  /** `InsertParcel`: what `createParcel` receives. */
  datatype InsertParcel = InsertParcel(trackingId: string, qrHash: string, data: ParcelData)

  /** The row PostgreSQL stores for a parcel insert: generated `id` and
      `createdAt`, the column defaults for what the insert leaves out, and no
      `deliveredAt`, which the insert schema omits. */
  function NewParcel(id: Id, at: nat, ins: InsertParcel): (p: Parcel)
    ensures p.id == id && p.createdAt == at && p.deliveredAt == None
    ensures p.trackingId == ins.trackingId && p.qrHash == ins.qrHash
    ensures p.status == (if ins.data.status.Some? then ins.data.status.value else Pending)
    ensures p.isPaid == (ins.data.isPaid.Some? && ins.data.isPaid.value)
    ensures p.photos == (if ins.data.photos.Some? then ins.data.photos.value else [])
    ensures p.senderId == ins.data.senderId && p.driverId == ins.data.driverId
    ensures p.recipientName == ins.data.recipientName && p.recipientPhone == ins.data.recipientPhone
    ensures p.pickupPartnerId == ins.data.pickupPartnerId && p.dropoffPartnerId == ins.data.dropoffPartnerId
    ensures p.weight == ins.data.weight && p.distance == ins.data.distance && p.price == ins.data.price
    ensures p.paymentMethod == ins.data.paymentMethod && p.description == ins.data.description
    ensures p.deliveryProof == ins.data.deliveryProof && p.rating == ins.data.rating && p.review == ins.data.review
  {
    var d := ins.data;
    Parcel(
      id, ins.trackingId, ins.qrHash, d.senderId, d.recipientName, d.recipientPhone,
      d.pickupPartnerId, d.dropoffPartnerId, d.driverId, d.status.GetOr(Pending),
      d.weight, d.distance, d.price, d.paymentMethod, d.isPaid.GetOr(false),
      d.description, d.photos.GetOr([]), d.deliveryProof, d.rating, d.review,
      at, None)
  }

  /** `InsertParcelEvent`, as the routes pass it: the enum columns are strings
      the database still has to cast, and a missing JSON key is `None`. */
  datatype InsertParcelEvent = InsertParcelEvent(
    parcelId: Id,
    actorId: Option<Id>,
    actorRole: Option<string>,
    status: string,
    location: Option<string>,
    notes: Option<string>,
    photo: Option<string>)

  /** `InsertTransaction`, as the transaction route passes it from the request body. */
  datatype InsertTransaction = InsertTransaction(
    userId: Option<Id>,
    amount: Option<Cents>,
    txType: Option<string>,
    txMethod: Option<string>,
    status: Option<string>,
    reference: Option<string>,
    description: Option<string>)

  /** The transaction `status` column's default. */
  const DefaultTransactionStatus: string := "completed"

  /** `InsertMessage`. */
  datatype InsertMessage = InsertMessage(
    senderId: Id, receiverId: Id, parcelId: Option<Id>, text: string, isRead: Option<bool>)

  /** `InsertNotification`. */
  datatype InsertNotification = InsertNotification(
    userId: Id, title: string, body: string, kind: Option<string>, referenceId: Option<Id>, isRead: Option<bool>)

  // ---------------------------------------------------------------- insert schema

  /** A JSON request body for `POST /api/parcels`, one field per key the
      parcels table knows (`None` when the key is absent). Keys the insert
      schema omits (`id`, `createdAt`, `deliveredAt`) can still be sent. */
  datatype ParcelBody = ParcelBody(
    id: Option<Id>,
    trackingId: Option<string>,
    qrHash: Option<string>,
    senderId: Option<Id>,
    recipientName: Option<string>,
    recipientPhone: Option<string>,
    pickupPartnerId: Option<Id>,
    dropoffPartnerId: Option<Id>,
    driverId: Option<Id>,
    status: Option<string>,
    weight: Option<string>,
    distance: Option<string>,
    price: Option<string>,
    paymentMethod: Option<string>,
    isPaid: Option<bool>,
    description: Option<string>,
    photos: Option<seq<string>>,
    deliveryProof: Option<string>,
    rating: Option<int>,
    review: Option<string>,
    createdAt: Option<nat>,
    deliveredAt: Option<nat>)

  /** The columns a parcel insert must carry: not null and without a default. */
  predicate HasRequiredParcelFields(b: ParcelBody)
  {
    && b.senderId.Some? && b.recipientName.Some? && b.recipientPhone.Some?
    && b.weight.Some? && b.price.Some? && b.paymentMethod.Some?
  }

  /** The insert schema for parcels with the server-generated `trackingId` and
      `qrHash` left out: the required columns must be present, the enum
      columns must hold enum labels, and every omitted or unknown key is
      stripped. */
  function ParseInsertParcel(b: ParcelBody): (r: Option<ParcelData>)
    ensures r.Some? <==>
      && HasRequiredParcelFields(b)
      && ParsePaymentMethod(b.paymentMethod.value).Some?
      && (b.status.Some? ==> ParseParcelStatus(b.status.value).Some?)
    ensures r.Some? ==>
      && r.value.senderId == b.senderId.value
      && r.value.recipientName == b.recipientName.value
      && r.value.recipientPhone == b.recipientPhone.value
      && r.value.weight == b.weight.value
      && r.value.price == b.price.value
      && PaymentMethodLabel(r.value.paymentMethod) == b.paymentMethod.value
      && r.value.status.Some? == b.status.Some?
      && (b.status.Some? ==> ParcelStatusLabel(r.value.status.value) == b.status.value)
      && r.value.isPaid == b.isPaid && r.value.driverId == b.driverId
      && r.value.pickupPartnerId == b.pickupPartnerId && r.value.dropoffPartnerId == b.dropoffPartnerId
      && r.value.distance == b.distance && r.value.description == b.description && r.value.photos == b.photos
      && r.value.deliveryProof == b.deliveryProof && r.value.rating == b.rating && r.value.review == b.review
  {
    if !HasRequiredParcelFields(b) then None
    else
      match ParsePaymentMethod(b.paymentMethod.value)
      case None => None
      case Some(pm) =>
        if b.status.Some? && ParseParcelStatus(b.status.value).None? then None
        else
          var status := if b.status.Some? then ParseParcelStatus(b.status.value) else None;
          Some(ParcelData(
            b.senderId.value, b.recipientName.value, b.recipientPhone.value,
            b.pickupPartnerId, b.dropoffPartnerId, b.driverId, status,
            b.weight.value, b.distance, b.price.value, pm, b.isPaid,
            b.description, b.photos, b.deliveryProof, b.rating, b.review))
  }

  /** Keys the insert schema omits never reach the insert: a body differing
      only in `id`, `createdAt`, `deliveredAt`, `trackingId` or `qrHash`
      parses to the same columns. */
  lemma OmittedKeysIgnored(b: ParcelBody, id: Option<Id>, at: Option<nat>, delivered: Option<nat>,
                           trackingId: Option<string>, qrHash: Option<string>)
    ensures ParseInsertParcel(b.(id := id, createdAt := at, deliveredAt := delivered,
                                 trackingId := trackingId, qrHash := qrHash))
         == ParseInsertParcel(b)
  {
  }

  /** `insertParcelSchema` as declared: it omits only `id`, `createdAt` and
      `deliveredAt`, so `trackingId` and `qrHash`, being not null and without
      a default, are required keys of the body. */
  function ParseInsertParcelAsWritten(b: ParcelBody): (r: Option<InsertParcel>)
    ensures r.Some? <==> b.trackingId.Some? && b.qrHash.Some? && ParseInsertParcel(b).Some?
    ensures r.Some? ==>
      && r.value.data == ParseInsertParcel(b).value
      && r.value.trackingId == b.trackingId.value && r.value.qrHash == b.qrHash.value
  {
    if b.trackingId.None? || b.qrHash.None? then None
    else
      match ParseInsertParcel(b)
      case None => None
      case Some(data) => Some(InsertParcel(b.trackingId.value, b.qrHash.value, data))
  }
}
