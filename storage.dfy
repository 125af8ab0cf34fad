/** `DatabaseStorage`: the tables of the ledger, the read queries over them
    (filter, then newest first) and the writes (inserts checked against the
    schema's constraints, and in-place updates of matching rows). */
module Storage {
  import opened Results
  import opened Tables
  import opened Schema
  import Text

  /** Why the database rejects a statement. */
  datatype DbError =
    | NotNullViolation(column: string)
    | UniqueViolation(column: string)
    | ForeignKeyViolation(column: string)
    | InvalidEnumValue(column: string)
    | NumericOverflow(column: string)

  /** `gen_random_uuid()`: the store hands out the decimal text of its clock
      reading, which is never handed out twice. */
  function MintId(n: nat): Id
  {
    Text.DecimalString(n)
  }

  lemma MintIdInjective(m: nat, n: nat)
    ensures MintId(m) == MintId(n) ==> m == n
  {
    Text.DecimalStringInjective(m, n);
  }

  // ---------------------------------------------------------------- column accessors

  function UserKey(u: User): Id { u.id }
  function ParcelKey(p: Parcel): Id { p.id }
  function ParcelStamp(p: Parcel): nat { p.createdAt }
  function TrackingIdOf(p: Parcel): string { p.trackingId }
  function QrHashOf(p: Parcel): string { p.qrHash }
  function EventKey(e: ParcelEvent): Id { e.id }
  function EventStamp(e: ParcelEvent): nat { e.createdAt }
  function TransactionKey(t: Transaction): Id { t.id }
  function TransactionStamp(t: Transaction): nat { t.createdAt }
  function MessageKey(m: Message): Id { m.id }
  function MessageStamp(m: Message): nat { m.createdAt }
  function NotificationKey(n: Notification): Id { n.id }
  function NotificationStamp(n: Notification): nat { n.createdAt }

  function UserIds(users: seq<User>): set<Id>
  {
    set u | u in users :: u.id
  }

  function ParcelIds(parcels: seq<Parcel>): set<Id>
  {
    set p | p in parcels :: p.id
  }

  // ---------------------------------------------------------------- reads

  function UserHasId(id: Id): User -> bool { (u: User) => u.id == id }
  function ParcelHasId(id: Id): Parcel -> bool { (p: Parcel) => p.id == id }
  function ParcelHasTrackingId(t: string): Parcel -> bool { (p: Parcel) => p.trackingId == t }
  function SentBy(senderId: Id): Parcel -> bool { (p: Parcel) => p.senderId == senderId }
  function DrivenBy(driverId: Id): Parcel -> bool { (p: Parcel) => p.driverId == Some(driverId) }
  function OfParcel(parcelId: Id): ParcelEvent -> bool { (e: ParcelEvent) => e.parcelId == parcelId }
  function OfUser(userId: Id): Transaction -> bool { (t: Transaction) => t.userId == userId }
  function Between(a: Id, b: Id): Message -> bool
  {
    (m: Message) => (m.senderId == a && m.receiverId == b) || (m.senderId == b && m.receiverId == a)
  }

  /** `getUser`: the user with that id, if there is one. */
  function GetUser(users: seq<User>, id: Id): (r: Option<User>)
    ensures r.Some? <==> id in UserIds(users)
    ensures r.Some? ==> r.value in users && r.value.id == id
  {
    First(users, UserHasId(id))
  }

  /** `getParcel`: the parcel with that id, if there is one. */
  function GetParcel(parcels: seq<Parcel>, id: Id): (r: Option<Parcel>)
    ensures r.Some? <==> id in ParcelIds(parcels)
    ensures r.Some? ==> r.value in parcels && r.value.id == id
  {
    First(parcels, ParcelHasId(id))
  }

  /** `getParcelByTrackingId`: a parcel with that tracking id, or nothing when none has it. */
  function GetParcelByTrackingId(parcels: seq<Parcel>, trackingId: string): (r: Option<Parcel>)
    ensures r.None? <==> forall p :: p in parcels ==> p.trackingId != trackingId
    ensures r.Some? ==> r.value in parcels && r.value.trackingId == trackingId
  {
    First(parcels, ParcelHasTrackingId(trackingId))
  }

  /** `getParcelsBySender`: exactly the parcels of that sender, newest first. */
  function GetParcelsBySender(parcels: seq<Parcel>, senderId: Id): (r: seq<Parcel>)
    ensures forall p :: p in r <==> p in parcels && p.senderId == senderId
    ensures multiset(r) == multiset(Filter(parcels, SentBy(senderId)))
    ensures NewestFirst(r, ParcelStamp)
  {
    Query(parcels, SentBy(senderId), ParcelStamp)
  }

  /** `getParcelsByDriver`: exactly the parcels assigned to that driver, newest first. */
  function GetParcelsByDriver(parcels: seq<Parcel>, driverId: Id): (r: seq<Parcel>)
    ensures forall p :: p in r <==> p in parcels && p.driverId == Some(driverId)
    ensures multiset(r) == multiset(Filter(parcels, DrivenBy(driverId)))
    ensures NewestFirst(r, ParcelStamp)
  {
    Query(parcels, DrivenBy(driverId), ParcelStamp)
  }

  /** `getParcelEvents`: exactly the events of that parcel, newest first. */
  function GetParcelEvents(events: seq<ParcelEvent>, parcelId: Id): (r: seq<ParcelEvent>)
    ensures forall e :: e in r <==> e in events && e.parcelId == parcelId
    ensures multiset(r) == multiset(Filter(events, OfParcel(parcelId)))
    ensures NewestFirst(r, EventStamp)
  {
    Query(events, OfParcel(parcelId), EventStamp)
  }

  /** `getTransactionsByUser`: exactly that user's transactions, newest first. */
  function GetTransactionsByUser(transactions: seq<Transaction>, userId: Id): (r: seq<Transaction>)
    ensures forall t :: t in r <==> t in transactions && t.userId == userId
    ensures multiset(r) == multiset(Filter(transactions, OfUser(userId)))
    ensures NewestFirst(r, TransactionStamp)
  {
    Query(transactions, OfUser(userId), TransactionStamp)
  }

  /** `getMessagesBetweenUsers`: the messages either user sent the other, newest first. */
  function GetMessagesBetweenUsers(messages: seq<Message>, userId1: Id, userId2: Id): (r: seq<Message>)
    ensures forall m :: m in r <==>
      (m in messages &&
       ((m.senderId == userId1 && m.receiverId == userId2) || (m.senderId == userId2 && m.receiverId == userId1)))
    ensures multiset(r) == multiset(Filter(messages, Between(userId1, userId2)))
    ensures NewestFirst(r, MessageStamp)
  {
    Query(messages, Between(userId1, userId2), MessageStamp)
  }

  /** The conversation between two users is the same whichever is named first. */
  lemma MessagesBetweenSymmetric(messages: seq<Message>, a: Id, b: Id)
    ensures GetMessagesBetweenUsers(messages, a, b) == GetMessagesBetweenUsers(messages, b, a)
  {
    FilterSameCondition(messages, Between(a, b), Between(b, a));
  }

  // ---------------------------------------------------------------- in-place updates

  /** JavaScript truthiness of an optional string argument. */
  predicate Truthy(s: Option<string>)
  {
    s.Some? && s.value != ""
  }

  function WriteStatus(p: Parcel, id: Id, status: ParcelStatus, driverId: Option<Id>): Parcel
  {
    if p.id != id then p
    else p.(status := status, driverId := if Truthy(driverId) then driverId else p.driverId)
  }

  /** `UPDATE parcels SET status = ..., [driver_id = ...] WHERE id = ...`:
      the matching parcel gets the status, and the driver only when the
      driver argument is truthy; nothing else changes. */
  function WithStatus(parcels: seq<Parcel>, id: Id, status: ParcelStatus, driverId: Option<Id>): (r: seq<Parcel>)
    ensures |r| == |parcels|
    ensures forall i :: 0 <= i < |r| && parcels[i].id != id ==> r[i] == parcels[i]
    ensures forall i :: 0 <= i < |r| && parcels[i].id == id ==>
      && r[i].status == status
      && r[i].driverId == (if Truthy(driverId) then driverId else parcels[i].driverId)
      && r[i].(status := parcels[i].status, driverId := parcels[i].driverId) == parcels[i]
    ensures id !in ParcelIds(parcels) ==> r == parcels
  {
    var r := seq(|parcels|, i requires 0 <= i < |parcels| => WriteStatus(parcels[i], id, status, driverId));
    assert id !in ParcelIds(parcels) ==> forall i :: 0 <= i < |parcels| ==> parcels[i].id != id;
    r
  }

  /** `UPDATE users SET wallet_balance = ... WHERE id = ...`. */
  function WithBalance(users: seq<User>, id: Id, balance: Cents): (r: seq<User>)
    ensures |r| == |users|
    ensures forall i :: 0 <= i < |r| ==> r[i] == if users[i].id == id then users[i].(walletBalance := balance) else users[i]
  {
    seq(|users|, i requires 0 <= i < |users| => if users[i].id == id then users[i].(walletBalance := balance) else users[i])
  }

  /** `UPDATE notifications SET is_read = true WHERE id = ...`. */
  function MarkRead(notifications: seq<Notification>, id: Id): (r: seq<Notification>)
    ensures |r| == |notifications|
    ensures forall i :: 0 <= i < |r| ==> r[i] == if notifications[i].id == id then notifications[i].(isRead := true) else notifications[i]
  {
    seq(|notifications|, i requires 0 <= i < |notifications| =>
      if notifications[i].id == id then notifications[i].(isRead := true) else notifications[i])
  }

  /** Marking a notification read twice is the same as marking it once. */
  lemma MarkReadIdempotent(notifications: seq<Notification>, id: Id)
    ensures MarkRead(MarkRead(notifications, id), id) == MarkRead(notifications, id)
  {
  }

  /** After a status write the parcel reads back with the new status, and
      with the new driver when one was given. */
  lemma GetParcelAfterStatusWrite(parcels: seq<Parcel>, id: Id, status: ParcelStatus, driverId: Option<Id>)
    requires KeysUnique(parcels, ParcelKey)
    ensures GetParcel(WithStatus(parcels, id, status, driverId), id) ==
      (match GetParcel(parcels, id)
       case None => None
       case Some(p) => Some(p.(status := status, driverId := if Truthy(driverId) then driverId else p.driverId)))
  {
    var r := WithStatus(parcels, id, status, driverId);
    if id in ParcelIds(parcels) {
      var i :| 0 <= i < |parcels| && parcels[i].id == id;
      FirstOfUnique(parcels, ParcelHasId(id), i);
      FirstOfUnique(r, ParcelHasId(id), i);
    }
  }

  /** A status write leaves every other parcel reading back as before. */
  lemma GetOtherParcelAfterStatusWrite(parcels: seq<Parcel>, id: Id, status: ParcelStatus, driverId: Option<Id>, other: Id)
    requires KeysUnique(parcels, ParcelKey) && other != id
    ensures GetParcel(WithStatus(parcels, id, status, driverId), other) == GetParcel(parcels, other)
  {
    var r := WithStatus(parcels, id, status, driverId);
    ParcelIdsOfStatusWrite(parcels, id, status, driverId);
    if other in ParcelIds(parcels) {
      var j :| 0 <= j < |parcels| && parcels[j].id == other;
      FirstOfUnique(parcels, ParcelHasId(other), j);
      FirstOfUnique(r, ParcelHasId(other), j);
    }
  }

  /** After a balance write the user reads back with exactly the new balance. */
  lemma GetUserAfterBalanceWrite(users: seq<User>, id: Id, balance: Cents)
    requires KeysUnique(users, UserKey)
    ensures GetUser(WithBalance(users, id, balance), id) ==
      (match GetUser(users, id)
       case None => None
       case Some(u) => Some(u.(walletBalance := balance)))
  {
    var r := WithBalance(users, id, balance);
    if id in UserIds(users) {
      var i :| 0 <= i < |users| && users[i].id == id;
      assert r[i] == users[i].(walletBalance := balance);
      FirstOfUnique(users, UserHasId(id), i);
      FirstOfUnique(r, UserHasId(id), i);
    } else {
      assert forall i :: 0 <= i < |r| ==> r[i] == users[i];
      assert r == users;
    }
  }

  /** A balance write leaves every other user reading back as before. */
  lemma GetOtherUserAfterBalanceWrite(users: seq<User>, id: Id, balance: Cents, other: Id)
    requires KeysUnique(users, UserKey) && other != id
    ensures GetUser(WithBalance(users, id, balance), other) == GetUser(users, other)
  {
    var r := WithBalance(users, id, balance);
    if other in UserIds(users) {
      var j :| 0 <= j < |users| && users[j].id == other;
      assert r[j] == users[j];
      FirstOfUnique(users, UserHasId(other), j);
      FirstOfUnique(r, UserHasId(other), j);
    } else {
      assert other !in UserIds(r) by {
        forall i | 0 <= i < |r| ensures r[i].id != other { assert users[i] in users; }
      }
    }
  }

  // ---------------------------------------------------------------- inserts

  /** The parcel row an insert stores, or the constraint it breaks: a
      `rating` outside the 32-bit `integer` range, unique `trackingId` and
      `qrHash`, and the foreign keys to users and partners. */
  function ParcelInsert(users: seq<User>, partnerIds: set<Id>, parcels: seq<Parcel>,
                        ins: InsertParcel, id: Id, at: nat): (r: Result<Parcel, DbError>)
    ensures r.Success? <==>
      && (forall p :: p in parcels ==> p.trackingId != ins.trackingId && p.qrHash != ins.qrHash)
      && ins.data.senderId in UserIds(users)
      && (ins.data.driverId.Some? ==> ins.data.driverId.value in UserIds(users))
      && (ins.data.pickupPartnerId.Some? ==> ins.data.pickupPartnerId.value in partnerIds)
      && (ins.data.dropoffPartnerId.Some? ==> ins.data.dropoffPartnerId.value in partnerIds)
      && (ins.data.rating.Some? ==> FitsInteger(ins.data.rating.value))
    ensures r.Success? ==> r.value == NewParcel(id, at, ins)
  {
    var d := ins.data;
    if d.rating.Some? && !FitsInteger(d.rating.value) then Failure(NumericOverflow("rating"))
    else if exists p :: p in parcels && p.trackingId == ins.trackingId then Failure(UniqueViolation("tracking_id"))
    else if exists p :: p in parcels && p.qrHash == ins.qrHash then Failure(UniqueViolation("qr_hash"))
    else if d.senderId !in UserIds(users) then Failure(ForeignKeyViolation("sender_id"))
    else if d.driverId.Some? && d.driverId.value !in UserIds(users) then Failure(ForeignKeyViolation("driver_id"))
    else if d.pickupPartnerId.Some? && d.pickupPartnerId.value !in partnerIds then Failure(ForeignKeyViolation("pickup_partner_id"))
    else if d.dropoffPartnerId.Some? && d.dropoffPartnerId.value !in partnerIds then Failure(ForeignKeyViolation("dropoff_partner_id"))
    else Success(NewParcel(id, at, ins))
  }

  /** The event row an insert stores, or the constraint it breaks: not-null
      actor and role, enum labels for role and status, and the foreign keys
      to the parcel and the acting user. */
  function EventInsert(users: seq<User>, parcels: seq<Parcel>, ins: InsertParcelEvent, id: Id, at: nat)
    : (r: Result<ParcelEvent, DbError>)
    ensures r.Success? <==>
      && ins.actorId.Some? && ins.actorRole.Some?
      && ParseUserRole(ins.actorRole.value).Some? && ParseParcelStatus(ins.status).Some?
      && ins.parcelId in ParcelIds(parcels) && ins.actorId.value in UserIds(users)
    ensures r.Success? ==>
      && r.value.id == id && r.value.createdAt == at
      && r.value.parcelId == ins.parcelId && r.value.actorId == ins.actorId.value
      && UserRoleLabel(r.value.actorRole) == ins.actorRole.value
      && ParcelStatusLabel(r.value.status) == ins.status
      && r.value.location == ins.location && r.value.notes == ins.notes && r.value.photo == ins.photo
  {
    match ParseParcelStatus(ins.status)
    case None => Failure(InvalidEnumValue("status"))
    case Some(status) =>
      if ins.actorRole.Some? && ParseUserRole(ins.actorRole.value).None? then Failure(InvalidEnumValue("actor_role"))
      else if ins.actorId.None? then Failure(NotNullViolation("actor_id"))
      else if ins.actorRole.None? then Failure(NotNullViolation("actor_role"))
      else if ins.parcelId !in ParcelIds(parcels) then Failure(ForeignKeyViolation("parcel_id"))
      else if ins.actorId.value !in UserIds(users) then Failure(ForeignKeyViolation("actor_id"))
      else
        Success(ParcelEvent(id, ins.parcelId, ins.actorId.value, ParseUserRole(ins.actorRole.value).value,
                            status, ins.location, ins.notes, ins.photo, at))
  }

  /** The transaction row an insert stores, or the constraint it breaks:
      not-null user, amount and type, enum labels for type and method, an
      amount that fits `decimal(10, 2)`, and the foreign key to the user.
      `status` takes its default, "completed", when left out. */
  function TransactionInsert(users: seq<User>, ins: InsertTransaction, id: Id, at: nat)
    : (r: Result<Transaction, DbError>)
    ensures r.Success? <==>
      && ins.userId.Some? && ins.amount.Some? && ins.txType.Some?
      && ParseTransactionType(ins.txType.value).Some?
      && (ins.txMethod.Some? ==> ParsePaymentMethod(ins.txMethod.value).Some?)
      && FitsMoney(ins.amount.value)
      && ins.userId.value in UserIds(users)
    ensures r.Success? ==>
      && r.value.id == id && r.value.createdAt == at
      && r.value.userId == ins.userId.value && r.value.amount == ins.amount.value
      && TransactionTypeLabel(r.value.txType) == ins.txType.value
      && r.value.txMethod.Some? == ins.txMethod.Some?
      && (ins.txMethod.Some? ==> PaymentMethodLabel(r.value.txMethod.value) == ins.txMethod.value)
      && r.value.status == (if ins.status.Some? then ins.status.value else DefaultTransactionStatus)
      && r.value.reference == ins.reference && r.value.description == ins.description
  {
    if ins.txType.Some? && ParseTransactionType(ins.txType.value).None? then Failure(InvalidEnumValue("type"))
    else if ins.txMethod.Some? && ParsePaymentMethod(ins.txMethod.value).None? then Failure(InvalidEnumValue("method"))
    else if ins.amount.Some? && !FitsMoney(ins.amount.value) then Failure(NumericOverflow("amount"))
    else if ins.userId.None? then Failure(NotNullViolation("user_id"))
    else if ins.amount.None? then Failure(NotNullViolation("amount"))
    else if ins.txType.None? then Failure(NotNullViolation("type"))
    else if ins.userId.value !in UserIds(users) then Failure(ForeignKeyViolation("user_id"))
    else
      var pm := if ins.txMethod.Some? then ParsePaymentMethod(ins.txMethod.value) else None;
      Success(Transaction(id, ins.userId.value, ins.amount.value, ParseTransactionType(ins.txType.value).value,
                          pm, ins.status.GetOr(DefaultTransactionStatus), ins.reference, ins.description, at))
  }

  /** The message row an insert stores, or the foreign key it breaks. */
  function MessageInsert(users: seq<User>, parcels: seq<Parcel>, ins: InsertMessage, id: Id, at: nat)
    : (r: Result<Message, DbError>)
    ensures r.Success? <==>
      && ins.senderId in UserIds(users) && ins.receiverId in UserIds(users)
      && (ins.parcelId.Some? ==> ins.parcelId.value in ParcelIds(parcels))
    ensures r.Success? ==> r.value == Message(id, ins.senderId, ins.receiverId, ins.parcelId, ins.text,
                                              ins.isRead.Some? && ins.isRead.value, at)
  {
    if ins.senderId !in UserIds(users) then Failure(ForeignKeyViolation("sender_id"))
    else if ins.receiverId !in UserIds(users) then Failure(ForeignKeyViolation("receiver_id"))
    else if ins.parcelId.Some? && ins.parcelId.value !in ParcelIds(parcels) then Failure(ForeignKeyViolation("parcel_id"))
    else Success(Message(id, ins.senderId, ins.receiverId, ins.parcelId, ins.text, ins.isRead.GetOr(false), at))
  }

  /** The notification row an insert stores, or the foreign key it breaks. */
  function NotificationInsert(users: seq<User>, ins: InsertNotification, id: Id, at: nat)
    : (r: Result<Notification, DbError>)
    ensures r.Success? <==> ins.userId in UserIds(users)
    ensures r.Success? ==> r.value == Notification(id, ins.userId, ins.title, ins.body, ins.kind, ins.referenceId,
                                                   ins.isRead.Some? && ins.isRead.value, at)
  {
    if ins.userId !in UserIds(users) then Failure(ForeignKeyViolation("user_id"))
    else Success(Notification(id, ins.userId, ins.title, ins.body, ins.kind, ins.referenceId, ins.isRead.GetOr(false), at))
  }

  /** Why a status write fails: a status that is not a `parcel_status` label,
      or a truthy driver that is no user while some parcel matches the id.
      A write that matches no parcel checks no foreign key. */
  function StatusWriteError(users: seq<User>, parcels: seq<Parcel>, id: Id, status: string, driverId: Option<Id>)
    : (r: Option<DbError>)
    ensures r.None? <==>
      && ParseParcelStatus(status).Some?
      && (id in ParcelIds(parcels) && Truthy(driverId) ==> driverId.value in UserIds(users))
  {
    if ParseParcelStatus(status).None? then Some(InvalidEnumValue("status"))
    else if id in ParcelIds(parcels) && Truthy(driverId) && driverId.value !in UserIds(users) then
      Some(ForeignKeyViolation("driver_id"))
    else None
  }

  /** Why a balance write fails: a balance outside `decimal(10, 2)`. */
  function BalanceWriteError(balance: Cents): (r: Option<DbError>)
    ensures r.None? <==> FitsMoney(balance)
  {
    if FitsMoney(balance) then None else Some(NumericOverflow("wallet_balance"))
  }

  // ---------------------------------------------------------------- event log

  /** Appending the newest event puts it at the head of its parcel's history
      and leaves every other parcel's history as it was. */
  lemma EventsAfterAppend(events: seq<ParcelEvent>, e: ParcelEvent, parcelId: Id)
    requires OldestFirst(events + [e], EventStamp)
    ensures GetParcelEvents(events + [e], parcelId) ==
      (if e.parcelId == parcelId then [e] else []) + GetParcelEvents(events, parcelId)
  {
    QueryAppend(events, e, OfParcel(parcelId), EventStamp);
  }

  /** On a table filled oldest first, a parcel's history is its events in
      reverse insertion order. */
  lemma EventsInReverseInsertionOrder(events: seq<ParcelEvent>, parcelId: Id)
    requires OldestFirst(events, EventStamp)
    ensures GetParcelEvents(events, parcelId) == Reverse(Filter(events, OfParcel(parcelId)))
  {
    QueryOldestFirst(events, OfParcel(parcelId), EventStamp);
  }

  // ---------------------------------------------------------------- invariants

  /** Every row's id is the one minted from its `createdAt`. */
  predicate Minted<T>(rows: seq<T>, key: T -> Id, stamp: T -> nat)
  {
    forall i :: 0 <= i < |rows| ==> key(rows[i]) == MintId(stamp(rows[i]))
  }

  /** A table filled by the store: oldest first, stamps below the clock, minted ids. */
  predicate StoreFilled<T>(rows: seq<T>, key: T -> Id, stamp: T -> nat, clock: nat)
  {
    Chronological(rows, stamp, clock) && Minted(rows, key, stamp)
  }

  /** A store-filled table has a primary key and never holds the next id to be minted. */
  lemma StoreFilledKeys<T>(rows: seq<T>, key: T -> Id, stamp: T -> nat, clock: nat)
    requires StoreFilled(rows, key, stamp, clock)
    ensures KeysUnique(rows, key)
    ensures forall i :: 0 <= i < |rows| ==> key(rows[i]) != MintId(clock)
  {
    forall i, j | 0 <= i < j < |rows| ensures key(rows[i]) != key(rows[j]) {
      MintIdInjective(stamp(rows[i]), stamp(rows[j]));
    }
    forall i | 0 <= i < |rows| ensures key(rows[i]) != MintId(clock) {
      MintIdInjective(stamp(rows[i]), clock);
    }
  }

  lemma StoreFilledAppend<T>(rows: seq<T>, x: T, key: T -> Id, stamp: T -> nat, clock: nat)
    requires StoreFilled(rows, key, stamp, clock)
    requires stamp(x) == clock && key(x) == MintId(clock)
    ensures StoreFilled(rows + [x], key, stamp, clock + 1)
  {
  }

  predicate UsersValid(users: seq<User>)
  {
    KeysUnique(users, UserKey) && forall i :: 0 <= i < |users| ==> FitsMoney(users[i].walletBalance)
  }

  predicate ParcelRefsValid(p: Parcel, userIds: set<Id>, partnerIds: set<Id>)
  {
    && p.senderId in userIds
    && (p.driverId.Some? ==> p.driverId.value in userIds)
    && (p.pickupPartnerId.Some? ==> p.pickupPartnerId.value in partnerIds)
    && (p.dropoffPartnerId.Some? ==> p.dropoffPartnerId.value in partnerIds)
  }

  predicate ParcelsValid(parcels: seq<Parcel>, userIds: set<Id>, partnerIds: set<Id>, clock: nat)
  {
    && StoreFilled(parcels, ParcelKey, ParcelStamp, clock)
    && KeysUnique(parcels, TrackingIdOf) && KeysUnique(parcels, QrHashOf)
    && forall i :: 0 <= i < |parcels| ==> ParcelRefsValid(parcels[i], userIds, partnerIds)
  }

  predicate EventsValid(events: seq<ParcelEvent>, parcelIds: set<Id>, userIds: set<Id>, clock: nat)
  {
    && StoreFilled(events, EventKey, EventStamp, clock)
    && forall i :: 0 <= i < |events| ==> events[i].parcelId in parcelIds && events[i].actorId in userIds
  }

  predicate TransactionsValid(transactions: seq<Transaction>, userIds: set<Id>, clock: nat)
  {
    && StoreFilled(transactions, TransactionKey, TransactionStamp, clock)
    && forall i :: 0 <= i < |transactions| ==>
         transactions[i].userId in userIds && FitsMoney(transactions[i].amount)
  }

  predicate MessagesValid(messages: seq<Message>, parcelIds: set<Id>, userIds: set<Id>, clock: nat)
  {
    && StoreFilled(messages, MessageKey, MessageStamp, clock)
    && forall i :: 0 <= i < |messages| ==>
         && messages[i].senderId in userIds && messages[i].receiverId in userIds
         && (messages[i].parcelId.Some? ==> messages[i].parcelId.value in parcelIds)
  }

  predicate NotificationsValid(notifications: seq<Notification>, userIds: set<Id>, clock: nat)
  {
    && StoreFilled(notifications, NotificationKey, NotificationStamp, clock)
    && forall i :: 0 <= i < |notifications| ==> notifications[i].userId in userIds
  }

  lemma UserIdsOfBalanceWrite(users: seq<User>, id: Id, balance: Cents)
    ensures UserIds(WithBalance(users, id, balance)) == UserIds(users)
  {
    var r := WithBalance(users, id, balance);
    forall x | x in UserIds(r) ensures x in UserIds(users) {
      var i :| 0 <= i < |r| && r[i].id == x;
      assert users[i] in users;
    }
    forall x | x in UserIds(users) ensures x in UserIds(r) {
      var i :| 0 <= i < |users| && users[i].id == x;
      assert r[i] in r;
    }
  }

  lemma ParcelIdsOfStatusWrite(parcels: seq<Parcel>, id: Id, status: ParcelStatus, driverId: Option<Id>)
    ensures ParcelIds(WithStatus(parcels, id, status, driverId)) == ParcelIds(parcels)
  {
    var r := WithStatus(parcels, id, status, driverId);
    forall x | x in ParcelIds(r) ensures x in ParcelIds(parcels) {
      var i :| 0 <= i < |r| && r[i].id == x;
      assert parcels[i] in parcels;
    }
    forall x | x in ParcelIds(parcels) ensures x in ParcelIds(r) {
      var i :| 0 <= i < |parcels| && parcels[i].id == x;
      assert r[i] in r;
    }
  }

  lemma ParcelsValidAppend(parcels: seq<Parcel>, p: Parcel, userIds: set<Id>, partnerIds: set<Id>, clock: nat)
    requires ParcelsValid(parcels, userIds, partnerIds, clock)
    requires p.createdAt == clock && p.id == MintId(clock) && ParcelRefsValid(p, userIds, partnerIds)
    requires forall q :: q in parcels ==> q.trackingId != p.trackingId && q.qrHash != p.qrHash
    ensures ParcelsValid(parcels + [p], userIds, partnerIds, clock + 1)
  {
    StoreFilledAppend(parcels, p, ParcelKey, ParcelStamp, clock);
    var r := parcels + [p];
    forall i, j | 0 <= i < j < |r| ensures r[i].trackingId != r[j].trackingId && r[i].qrHash != r[j].qrHash {
      if j == |parcels| { assert parcels[i] in parcels; }
    }
  }

  lemma ParcelsValidAfterStatusWrite(parcels: seq<Parcel>, userIds: set<Id>, partnerIds: set<Id>, clock: nat,
                                     id: Id, status: ParcelStatus, driverId: Option<Id>)
    requires ParcelsValid(parcels, userIds, partnerIds, clock)
    requires id in ParcelIds(parcels) && Truthy(driverId) ==> driverId.value in userIds
    ensures ParcelsValid(WithStatus(parcels, id, status, driverId), userIds, partnerIds, clock)
  {
    var r := WithStatus(parcels, id, status, driverId);
    forall i | 0 <= i < |r|
      ensures && r[i].id == parcels[i].id && r[i].createdAt == parcels[i].createdAt
              && r[i].trackingId == parcels[i].trackingId && r[i].qrHash == parcels[i].qrHash
              && ParcelRefsValid(r[i], userIds, partnerIds)
    {
      if parcels[i].id == id {
        assert parcels[i] in parcels;
      }
    }
  }

  lemma EventsValidWiden(events: seq<ParcelEvent>, parcelIds: set<Id>, moreParcelIds: set<Id>, userIds: set<Id>,
                         clock: nat, later: nat)
    requires EventsValid(events, parcelIds, userIds, clock)
    requires parcelIds <= moreParcelIds && clock <= later
    ensures EventsValid(events, moreParcelIds, userIds, later)
  {
  }

  lemma MessagesValidWiden(messages: seq<Message>, parcelIds: set<Id>, moreParcelIds: set<Id>, userIds: set<Id>,
                           clock: nat, later: nat)
    requires MessagesValid(messages, parcelIds, userIds, clock)
    requires parcelIds <= moreParcelIds && clock <= later
    ensures MessagesValid(messages, moreParcelIds, userIds, later)
  {
  }

  /** The tables of the ledger, held in memory. Every insert stamps its row
      with the clock, mints its id from it, and advances the clock. */
  class DatabaseStorage {
    var users: seq<User>
    var partnerIds: set<Id>
    var parcels: seq<Parcel>
    var events: seq<ParcelEvent>
    var transactions: seq<Transaction>
    var messages: seq<Message>
    var notifications: seq<Notification>
    var clock: nat

    /** The schema's constraints hold of every table. */
    ghost predicate Valid()
      reads this
    {
      && UsersValid(users)
      && ParcelsValid(parcels, UserIds(users), partnerIds, clock)
      && EventsValid(events, ParcelIds(parcels), UserIds(users), clock)
      && TransactionsValid(transactions, UserIds(users), clock)
      && MessagesValid(messages, ParcelIds(parcels), UserIds(users), clock)
      && NotificationsValid(notifications, UserIds(users), clock)
    }

    /** A store over the users and partners that already exist, with every
        other table empty. */
    constructor (existingUsers: seq<User>, existingPartners: set<Id>)
      requires UsersValid(existingUsers)
      ensures Valid()
      ensures users == existingUsers && partnerIds == existingPartners
      ensures parcels == [] && events == [] && transactions == [] && messages == [] && notifications == []
    {
      users, partnerIds := existingUsers, existingPartners;
      parcels, events, transactions, messages, notifications := [], [], [], [], [];
      clock := 0;
    }

    /** `createParcel`. */
    method CreateParcel(ins: InsertParcel) returns (r: Result<Parcel, DbError>)
      requires Valid()
      modifies this
      ensures Valid()
      ensures r == ParcelInsert(old(users), old(partnerIds), old(parcels), ins, MintId(old(clock)), old(clock))
      ensures parcels == (if r.Success? then old(parcels) + [r.value] else old(parcels))
      ensures clock == (if r.Success? then old(clock) + 1 else old(clock))
      ensures users == old(users) && partnerIds == old(partnerIds) && events == old(events)
      ensures transactions == old(transactions) && messages == old(messages) && notifications == old(notifications)
    {
      r := ParcelInsert(users, partnerIds, parcels, ins, MintId(clock), clock);
      if r.Success? {
        ParcelsValidAppend(parcels, r.value, UserIds(users), partnerIds, clock);
        assert ParcelIds(parcels) <= ParcelIds(parcels + [r.value]);
        EventsValidWiden(events, ParcelIds(parcels), ParcelIds(parcels + [r.value]), UserIds(users), clock, clock + 1);
        MessagesValidWiden(messages, ParcelIds(parcels), ParcelIds(parcels + [r.value]), UserIds(users), clock, clock + 1);
        parcels := parcels + [r.value];
        clock := clock + 1;
      }
    }

    /** `updateParcelStatus`: no transition is checked; any status label is
        written over any current status. */
    method UpdateParcelStatus(id: Id, status: string, driverId: Option<Id>) returns (r: Outcome<DbError>)
      requires Valid()
      modifies this
      ensures Valid()
      ensures r.Pass? <==> StatusWriteError(old(users), old(parcels), id, status, driverId).None?
      ensures r.Fail? ==> r.error == StatusWriteError(old(users), old(parcels), id, status, driverId).value
      ensures parcels == (if r.Pass? then WithStatus(old(parcels), id, ParseParcelStatus(status).value, driverId)
                          else old(parcels))
      ensures users == old(users) && partnerIds == old(partnerIds) && events == old(events) && clock == old(clock)
      ensures transactions == old(transactions) && messages == old(messages) && notifications == old(notifications)
    {
      match StatusWriteError(users, parcels, id, status, driverId)
      case Some(e) =>
        r := Fail(e);
      case None =>
        var written := WithStatus(parcels, id, ParseParcelStatus(status).value, driverId);
        ParcelIdsOfStatusWrite(parcels, id, ParseParcelStatus(status).value, driverId);
        ParcelsValidAfterStatusWrite(parcels, UserIds(users), partnerIds, clock, id, ParseParcelStatus(status).value, driverId);
        parcels := written;
        r := Pass;
    }

    /** `createParcelEvent`: the only write to the event log, an append. */
    method CreateParcelEvent(ins: InsertParcelEvent) returns (r: Result<ParcelEvent, DbError>)
      requires Valid()
      modifies this
      ensures Valid()
      ensures r == EventInsert(old(users), old(parcels), ins, MintId(old(clock)), old(clock))
      ensures events == (if r.Success? then old(events) + [r.value] else old(events))
      ensures clock == (if r.Success? then old(clock) + 1 else old(clock))
      ensures users == old(users) && partnerIds == old(partnerIds) && parcels == old(parcels)
      ensures transactions == old(transactions) && messages == old(messages) && notifications == old(notifications)
    {
      r := EventInsert(users, parcels, ins, MintId(clock), clock);
      if r.Success? {
        StoreFilledAppend(events, r.value, EventKey, EventStamp, clock);
        events := events + [r.value];
        clock := clock + 1;
      }
    }

    /** `createTransaction`. */
    method CreateTransaction(ins: InsertTransaction) returns (r: Result<Transaction, DbError>)
      requires Valid()
      modifies this
      ensures Valid()
      ensures r == TransactionInsert(old(users), ins, MintId(old(clock)), old(clock))
      ensures transactions == (if r.Success? then old(transactions) + [r.value] else old(transactions))
      ensures clock == (if r.Success? then old(clock) + 1 else old(clock))
      ensures users == old(users) && partnerIds == old(partnerIds) && parcels == old(parcels)
      ensures events == old(events) && messages == old(messages) && notifications == old(notifications)
    {
      r := TransactionInsert(users, ins, MintId(clock), clock);
      if r.Success? {
        StoreFilledAppend(transactions, r.value, TransactionKey, TransactionStamp, clock);
        transactions := transactions + [r.value];
        clock := clock + 1;
      }
    }

    /** `updateUserBalance`: overwrites the balance of the user with that id. */
    method UpdateUserBalance(id: Id, balance: Cents) returns (r: Outcome<DbError>)
      requires Valid()
      modifies this
      ensures Valid()
      ensures r.Pass? <==> BalanceWriteError(balance).None?
      ensures r.Fail? ==> r.error == BalanceWriteError(balance).value
      ensures users == (if r.Pass? then WithBalance(old(users), id, balance) else old(users))
      ensures partnerIds == old(partnerIds) && parcels == old(parcels) && events == old(events) && clock == old(clock)
      ensures transactions == old(transactions) && messages == old(messages) && notifications == old(notifications)
    {
      match BalanceWriteError(balance)
      case Some(e) =>
        r := Fail(e);
      case None =>
        UserIdsOfBalanceWrite(users, id, balance);
        users := WithBalance(users, id, balance);
        r := Pass;
    }

    /** `createMessage`. */
    method CreateMessage(ins: InsertMessage) returns (r: Result<Message, DbError>)
      requires Valid()
      modifies this
      ensures Valid()
      ensures r == MessageInsert(old(users), old(parcels), ins, MintId(old(clock)), old(clock))
      ensures messages == (if r.Success? then old(messages) + [r.value] else old(messages))
      ensures clock == (if r.Success? then old(clock) + 1 else old(clock))
      ensures users == old(users) && partnerIds == old(partnerIds) && parcels == old(parcels)
      ensures events == old(events) && transactions == old(transactions) && notifications == old(notifications)
    {
      r := MessageInsert(users, parcels, ins, MintId(clock), clock);
      if r.Success? {
        StoreFilledAppend(messages, r.value, MessageKey, MessageStamp, clock);
        messages := messages + [r.value];
        clock := clock + 1;
      }
    }

    /** `createNotification`. */
    method CreateNotification(ins: InsertNotification) returns (r: Result<Notification, DbError>)
      requires Valid()
      modifies this
      ensures Valid()
      ensures r == NotificationInsert(old(users), ins, MintId(old(clock)), old(clock))
      ensures notifications == (if r.Success? then old(notifications) + [r.value] else old(notifications))
      ensures clock == (if r.Success? then old(clock) + 1 else old(clock))
      ensures users == old(users) && partnerIds == old(partnerIds) && parcels == old(parcels)
      ensures events == old(events) && transactions == old(transactions) && messages == old(messages)
    {
      r := NotificationInsert(users, ins, MintId(clock), clock);
      if r.Success? {
        StoreFilledAppend(notifications, r.value, NotificationKey, NotificationStamp, clock);
        notifications := notifications + [r.value];
        clock := clock + 1;
      }
    }

    /** `markNotificationAsRead`. */
    method MarkNotificationAsRead(id: Id)
      requires Valid()
      modifies this
      ensures Valid()
      ensures notifications == MarkRead(old(notifications), id)
      ensures users == old(users) && partnerIds == old(partnerIds) && parcels == old(parcels) && clock == old(clock)
      ensures events == old(events) && transactions == old(transactions) && messages == old(messages)
    {
      notifications := MarkRead(notifications, id);
    }
  }
}
