/** The HTTP handlers of the parcel and wallet ledger. Each is a sequence of
    storage calls on one store; a call that fails ends the handler with an
    error response and leaves the writes already made in place. */
module Routes {
  import opened Results
  import opened Tables
  import opened Schema
  import opened Storage
  import opened TrackingIds

  /** What a handler sends back: a JSON body, or a status code with an error message. */
  datatype Response<T> = Json(value: T) | HttpError(code: nat, message: string)

  /** The body of `GET /api/parcels/tracking/:trackingId`. */
  datatype TrackedParcel = TrackedParcel(parcel: Parcel, events: seq<ParcelEvent>)

  /** The body of `PATCH /api/parcels/:id/status` (a missing key is `None`). */
  datatype StatusBody = StatusBody(
    status: string, actorId: Option<Id>, actorRole: Option<string>, notes: Option<string>, driverId: Option<Id>)

  /** The body of `POST /api/transactions`; `amount` is already in cents. */
  datatype TransactionBody = TransactionBody(
    userId: Option<Id>, amount: Option<Cents>, txType: Option<string>, txMethod: Option<string>,
    description: Option<string>)

  const CreatedNote: string := "Parcel created"

  /** The parcel insert `POST /api/parcels` makes from validated columns:
      the minted tracking id and its hash replace anything the body held. */
  function ParcelInsertFor(data: ParcelData, now: nat, random: string, sha256Hex: string -> string)
    : (ins: InsertParcel)
    ensures ins.data == data
    ensures ins.trackingId == MintTrackingId(now, random)
    ensures ins.qrHash == sha256Hex(ins.trackingId)
  {
    var trackingId := MintTrackingId(now, random);
    InsertParcel(trackingId, sha256Hex(trackingId), data)
  }

  /** The event a new parcel starts its history with. */
  function CreatedEvent(p: Parcel): (ins: InsertParcelEvent)
    ensures ins.parcelId == p.id && ins.actorId == Some(p.senderId)
    ensures ins.actorRole == Some(UserRoleLabel(Customer)) && ins.status == ParcelStatusLabel(Pending)
    ensures ins.notes == Some(CreatedNote) && ins.location == None && ins.photo == None
  {
    InsertParcelEvent(p.id, Some(p.senderId), Some("customer"), "pending", None, Some(CreatedNote), None)
  }

  /** The event a status update appends. */
  function StatusEvent(id: Id, body: StatusBody): (ins: InsertParcelEvent)
    ensures ins.parcelId == id && ins.status == body.status
    ensures ins.actorId == body.actorId && ins.actorRole == body.actorRole && ins.notes == body.notes
    ensures ins.location == None && ins.photo == None
  {
    InsertParcelEvent(id, body.actorId, body.actorRole, body.status, None, body.notes, None)
  }

  /** The transaction insert `POST /api/transactions` makes: always "completed". */
  function TransactionInsertFor(body: TransactionBody): (ins: InsertTransaction)
    ensures ins.status == Some("completed") && ins.reference == None
    ensures ins.userId == body.userId && ins.amount == body.amount && ins.txType == body.txType
    ensures ins.txMethod == body.txMethod && ins.description == body.description
  {
    InsertTransaction(body.userId, body.amount, body.txType, body.txMethod, Some("completed"), None, body.description)
  }

  /** A parcel id about to be minted has no history yet. */
  lemma NoHistoryForFreshParcel(events: seq<ParcelEvent>, parcels: seq<Parcel>, userIds: set<Id>, clock: nat)
    requires EventsValid(events, ParcelIds(parcels), userIds, clock)
    requires StoreFilled(parcels, ParcelKey, ParcelStamp, clock)
    ensures GetParcelEvents(events, MintId(clock)) == []
  {
    StoreFilledKeys(parcels, ParcelKey, ParcelStamp, clock);
  }

  /** `POST /api/parcels`. */
  method CreateParcelRoute(db: DatabaseStorage, body: ParcelBody, now: nat, random: string, sha256Hex: string -> string)
    returns (res: Response<Parcel>)
    requires db.Valid()
    modifies db
    ensures db.Valid()
    ensures res.HttpError? ==> res == HttpError(400, "Failed to create parcel")
    ensures res.Json? <==>
      && ParseInsertParcel(body).Some?
      && ParcelInsert(old(db.users), old(db.partnerIds), old(db.parcels),
                      ParcelInsertFor(ParseInsertParcel(body).value, now, random, sha256Hex),
                      MintId(old(db.clock)), old(db.clock)).Success?
    ensures res.Json? ==>
      && res.value == NewParcel(MintId(old(db.clock)), old(db.clock),
                                ParcelInsertFor(ParseInsertParcel(body).value, now, random, sha256Hex))
      && db.parcels == old(db.parcels) + [res.value]
      && db.events == old(db.events) + [ParcelEvent(MintId(old(db.clock) + 1), res.value.id, res.value.senderId,
                                                    Customer, Pending, None, Some(CreatedNote), None, old(db.clock) + 1)]
      && GetParcelEvents(db.events, res.value.id) == [db.events[|db.events| - 1]]
      && (body.status.None? ==> res.value.status == Pending)
    ensures res.HttpError? ==> db.parcels == old(db.parcels) && db.events == old(db.events) && db.clock == old(db.clock)
    ensures db.users == old(db.users) && db.partnerIds == old(db.partnerIds) && db.transactions == old(db.transactions)
    ensures db.messages == old(db.messages) && db.notifications == old(db.notifications)
  {
    var parsed := ParseInsertParcel(body);
    if parsed.None? {
      return HttpError(400, "Failed to create parcel");
    }
    var created := db.CreateParcel(ParcelInsertFor(parsed.value, now, random, sha256Hex));
    if created.Failure? {
      return HttpError(400, "Failed to create parcel");
    }
    var parcel := created.value;
    ghost var eventsBefore := db.events;
    NoHistoryForFreshParcel(db.events, old(db.parcels), UserIds(db.users), old(db.clock));
    assert parcel in db.parcels;
    var logged := db.CreateParcelEvent(CreatedEvent(parcel));
    assert logged.Success?;
    EventsAfterAppend(eventsBefore, logged.value, parcel.id);
    res := Json(parcel);
  }

  /** `PATCH /api/parcels/:id/status`: the status write and the event insert
      are separate steps, and the status is written whatever it was before. */
  method UpdateStatusRoute(db: DatabaseStorage, id: Id, body: StatusBody) returns (res: Response<bool>)
    requires db.Valid()
    modifies db
    ensures db.Valid()
    ensures res.HttpError? ==> res == HttpError(400, "Failed to update parcel status")
    ensures res.Json? ==> res.value
    ensures db.parcels ==
      (if StatusWriteError(old(db.users), old(db.parcels), id, body.status, body.driverId).None?
       then WithStatus(old(db.parcels), id, ParseParcelStatus(body.status).value, body.driverId)
       else old(db.parcels))
    ensures res.Json? <==>
      && StatusWriteError(old(db.users), old(db.parcels), id, body.status, body.driverId).None?
      && EventInsert(old(db.users), old(db.parcels), StatusEvent(id, body), MintId(old(db.clock)), old(db.clock)).Success?
    ensures db.events ==
      (if res.Json? then old(db.events) + [EventInsert(old(db.users), old(db.parcels), StatusEvent(id, body),
                                                       MintId(old(db.clock)), old(db.clock)).value]
       else old(db.events))
    ensures res.Json? ==>
      && GetParcel(db.parcels, id).Some?
      && ParcelStatusLabel(GetParcel(db.parcels, id).value.status) == body.status
      && GetParcelEvents(db.events, id) != []
      && GetParcelEvents(db.events, id)[0].status == GetParcel(db.parcels, id).value.status
    ensures db.users == old(db.users) && db.partnerIds == old(db.partnerIds) && db.transactions == old(db.transactions)
    ensures db.messages == old(db.messages) && db.notifications == old(db.notifications)
  {
    var written := db.UpdateParcelStatus(id, body.status, body.driverId);
    if written.Fail? {
      return HttpError(400, "Failed to update parcel status");
    }
    ghost var status := ParseParcelStatus(body.status).value;
    ParcelIdsOfStatusWrite(old(db.parcels), id, status, body.driverId);
    ghost var eventsBefore := db.events;
    var logged := db.CreateParcelEvent(StatusEvent(id, body));
    if logged.Failure? {
      return HttpError(400, "Failed to update parcel status");
    }
    StoreFilledKeys(old(db.parcels), ParcelKey, ParcelStamp, old(db.clock));
    GetParcelAfterStatusWrite(old(db.parcels), id, status, body.driverId);
    EventsAfterAppend(eventsBefore, logged.value, id);
    res := Json(true);
  }

  /** `GET /api/parcels/tracking/:trackingId`. */
  method TrackParcelRoute(db: DatabaseStorage, trackingId: string) returns (res: Response<TrackedParcel>)
    requires db.Valid()
    ensures res.HttpError? <==> forall p :: p in db.parcels ==> p.trackingId != trackingId
    ensures res.HttpError? ==> res == HttpError(404, "Parcel not found")
    ensures res.Json? ==>
      && res.value.parcel in db.parcels && res.value.parcel.trackingId == trackingId
      && (forall e :: e in res.value.events <==> e in db.events && e.parcelId == res.value.parcel.id)
      && NewestFirst(res.value.events, EventStamp)
      && res.value.events == Reverse(Filter(db.events, OfParcel(res.value.parcel.id)))
  {
    var found := GetParcelByTrackingId(db.parcels, trackingId);
    if found.None? {
      return HttpError(404, "Parcel not found");
    }
    var events := GetParcelEvents(db.events, found.value.id);
    EventsInReverseInsertionOrder(db.events, found.value.id);
    res := Json(TrackedParcel(found.value, events));
  }

  /** `GET /api/parcels/sender/:senderId`. */
  method ParcelsBySenderRoute(db: DatabaseStorage, senderId: Id) returns (res: seq<Parcel>)
    requires db.Valid()
    ensures forall p :: p in res <==> p in db.parcels && p.senderId == senderId
    ensures NewestFirst(res, ParcelStamp)
    ensures res == Reverse(Filter(db.parcels, SentBy(senderId)))
  {
    QueryOldestFirst(db.parcels, SentBy(senderId), ParcelStamp);
    res := GetParcelsBySender(db.parcels, senderId);
  }

  /** `GET /api/parcels/driver/:driverId`. */
  method ParcelsByDriverRoute(db: DatabaseStorage, driverId: Id) returns (res: seq<Parcel>)
    requires db.Valid()
    ensures forall p :: p in res <==> p in db.parcels && p.driverId == Some(driverId)
    ensures NewestFirst(res, ParcelStamp)
    ensures res == Reverse(Filter(db.parcels, DrivenBy(driverId)))
  {
    QueryOldestFirst(db.parcels, DrivenBy(driverId), ParcelStamp);
    res := GetParcelsByDriver(db.parcels, driverId);
  }

  /** `GET /api/transactions/:userId`. */
  method TransactionsByUserRoute(db: DatabaseStorage, userId: Id) returns (res: seq<Transaction>)
    requires db.Valid()
    ensures forall t :: t in res <==> t in db.transactions && t.userId == userId
    ensures NewestFirst(res, TransactionStamp)
    ensures res == Reverse(Filter(db.transactions, OfUser(userId)))
  {
    QueryOldestFirst(db.transactions, OfUser(userId), TransactionStamp);
    res := GetTransactionsByUser(db.transactions, userId);
  }

  /** The balance a deposit of `amount` leaves a user with. */
  function DepositedBalance(u: User, amount: Cents): (b: Cents)
    ensures b - u.walletBalance == amount
  {
    u.walletBalance + amount
  }

  /** `POST /api/transactions`: stores a "completed" transaction and, for a
      deposit, then reads the user's balance and writes it back increased by
      the amount. */
  method RecordTransactionRoute(db: DatabaseStorage, body: TransactionBody) returns (res: Response<Transaction>)
    requires db.Valid()
    modifies db
    ensures db.Valid()
    ensures res.HttpError? ==> res == HttpError(400, "Failed to create transaction")
    ensures db.transactions ==
      (match TransactionInsert(old(db.users), TransactionInsertFor(body), MintId(old(db.clock)), old(db.clock))
       case Success(t) => old(db.transactions) + [t]
       case Failure(_) => old(db.transactions))
    ensures res.Json? ==> res.value.status == "completed" && db.transactions == old(db.transactions) + [res.value]
    ensures body.txType != Some("deposit") ==> db.users == old(db.users) && (res.Json? <==> db.transactions != old(db.transactions))
    ensures body.txType == Some("deposit") && db.transactions != old(db.transactions) ==>
      && body.userId.Some? && body.amount.Some?
      && GetUser(old(db.users), body.userId.value).Some?
      && var before := GetUser(old(db.users), body.userId.value).value;
         && (res.Json? <==> FitsMoney(DepositedBalance(before, body.amount.value)))
         && db.users == (if res.Json? then WithBalance(old(db.users), body.userId.value, DepositedBalance(before, body.amount.value))
                         else old(db.users))
    ensures res.Json? && body.txType == Some("deposit") ==>
      && GetUser(db.users, body.userId.value).Some?
      && GetUser(db.users, body.userId.value).value.walletBalance ==
         GetUser(old(db.users), body.userId.value).value.walletBalance + body.amount.value
      && forall other :: other != body.userId.value ==> GetUser(db.users, other) == GetUser(old(db.users), other)
    ensures db.transactions == old(db.transactions) ==> res.HttpError? && db.users == old(db.users)
    ensures db.partnerIds == old(db.partnerIds) && db.parcels == old(db.parcels) && db.events == old(db.events)
    ensures db.messages == old(db.messages) && db.notifications == old(db.notifications)
  {
    var created := db.CreateTransaction(TransactionInsertFor(body));
    if created.Failure? {
      return HttpError(400, "Failed to create transaction");
    }
    if body.txType == Some("deposit") {
      var user := GetUser(db.users, body.userId.value);
      if user.Some? {
        ghost var usersBefore := db.users;
        var written := db.UpdateUserBalance(body.userId.value, DepositedBalance(user.value, body.amount.value));
        if written.Fail? {
          return HttpError(400, "Failed to create transaction");
        }
        forall other | other != body.userId.value
          ensures GetUser(db.users, other) == GetUser(usersBefore, other)
        {
          DepositRaisesBalance(usersBefore, body.userId.value, body.amount.value, other);
        }
        DepositRaisesBalance(usersBefore, body.userId.value, body.amount.value, body.userId.value);
      }
    }
    res := Json(created.value);
  }

  /** After a deposit the depositor's balance has risen by exactly the amount
      and every other user reads back as before. */
  lemma DepositRaisesBalance(users: seq<User>, userId: Id, amount: Cents, other: Id)
    requires KeysUnique(users, UserKey) && GetUser(users, userId).Some?
    ensures GetUser(WithBalance(users, userId, DepositedBalance(GetUser(users, userId).value, amount)), userId).Some?
    ensures GetUser(WithBalance(users, userId, DepositedBalance(GetUser(users, userId).value, amount)), userId).value.walletBalance
            == GetUser(users, userId).value.walletBalance + amount
    ensures other != userId ==>
      GetUser(WithBalance(users, userId, DepositedBalance(GetUser(users, userId).value, amount)), other) == GetUser(users, other)
  {
    var b := DepositedBalance(GetUser(users, userId).value, amount);
    GetUserAfterBalanceWrite(users, userId, b);
    if other != userId {
      GetOtherUserAfterBalanceWrite(users, userId, b, other);
    }
  }
}
