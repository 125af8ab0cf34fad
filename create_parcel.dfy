/** The customer's create-parcel page: the form validator and the request
    body it posts to `POST /api/parcels`. */
module CreateParcelPage {
  import opened Results
  import opened Schema
  import Routes
  import Text

  /** The form's values. The partner ids are `None` when left unset; the
      description starts as "" and so is `Some("")` when left empty. */
  datatype ParcelForm = ParcelForm(
    recipientName: string,
    recipientPhone: string,
    weight: string,
    pickupPartnerId: Option<Id>,
    dropoffPartnerId: Option<Id>,
    description: Option<string>,
    paymentMethod: string)

  /** The signed-in user, as the page sees it. */
  datatype AuthUser = AuthUser(id: Id)

  /** The form fields the validator can reject. */
  datatype FormField = RecipientNameField | RecipientPhoneField | WeightField | PaymentMethodField

  /** The payment methods the form offers. */
  const FormPaymentMethods: seq<string> := ["wallet", "cash_on_delivery"]

  /** `parcelSchema`: the fields that fail validation, in declaration order.
      zod's `min` compares JavaScript's `length`, which counts UTF-16 code units. */
  function ParcelFormErrors(f: ParcelForm): (errs: seq<FormField>)
    ensures RecipientNameField in errs <==> Text.Utf16Length(f.recipientName) < 2
    ensures RecipientPhoneField in errs <==> Text.Utf16Length(f.recipientPhone) < 9
    ensures WeightField in errs <==> Text.Utf16Length(f.weight) < 1
    ensures PaymentMethodField in errs <==> f.paymentMethod !in FormPaymentMethods
  {
    (if Text.Utf16Length(f.recipientName) < 2 then [RecipientNameField] else [])
    + (if Text.Utf16Length(f.recipientPhone) < 9 then [RecipientPhoneField] else [])
    + (if Text.Utf16Length(f.weight) < 1 then [WeightField] else [])
    + (if f.paymentMethod !in FormPaymentMethods then [PaymentMethodField] else [])
  }

  /** A name of one emoji is two UTF-16 code units long, so the form accepts it. */
  lemma AstralNameAccepted()
    ensures RecipientNameField !in ParcelFormErrors(ParcelForm("\U{1F600}", "0911223344", "1", None, None, Some(""), "wallet"))
  {
    assert Text.Utf16Length("\U{1F600}") == 2;
  }

  predicate FormAccepted(f: ParcelForm)
  {
    ParcelFormErrors(f) == []
  }

  /** An accepted form names one of the two payment methods the form offers,
      each a label of the `payment_method` enum. */
  lemma AcceptedFormPaymentMethod(f: ParcelForm)
    requires FormAccepted(f)
    ensures ParsePaymentMethod(f.paymentMethod) == Some(Wallet) || ParsePaymentMethod(f.paymentMethod) == Some(CashOnDelivery)
    ensures Text.Utf16Length(f.recipientName) >= 2 && Text.Utf16Length(f.recipientPhone) >= 9 && f.weight != ""
  {
    assert f.paymentMethod !in FormPaymentMethods ==> PaymentMethodField in ParcelFormErrors(f);
  }

  /** The flat price every request carries. */
  const FlatPrice: string := "50.00"

  /** `mutationFn`: the body posted for a validated form, or the error thrown
      when nobody is signed in. */
  function BuildCreateRequest(user: Option<AuthUser>, f: ParcelForm): (r: Result<ParcelBody, string>)
    ensures r.Failure? <==> user.None?
    ensures r.Failure? ==> r.error == "User not authenticated"
    ensures r.Success? ==>
      && r.value.senderId == Some(user.value.id)
      && r.value.price == Some(FlatPrice) && r.value.isPaid == Some(false)
      && r.value.recipientName == Some(f.recipientName) && r.value.recipientPhone == Some(f.recipientPhone)
      && r.value.weight == Some(f.weight) && r.value.paymentMethod == Some(f.paymentMethod)
      && r.value.pickupPartnerId == f.pickupPartnerId && r.value.dropoffPartnerId == f.dropoffPartnerId
      && r.value.description == f.description
      && r.value.status == None && r.value.trackingId == None && r.value.qrHash == None && r.value.driverId == None
  {
    if user.None? then Failure("User not authenticated")
    else
      Success(ParcelBody(
        id := None, trackingId := None, qrHash := None, senderId := Some(user.value.id),
        recipientName := Some(f.recipientName), recipientPhone := Some(f.recipientPhone),
        pickupPartnerId := f.pickupPartnerId, dropoffPartnerId := f.dropoffPartnerId, driverId := None,
        status := None, weight := Some(f.weight), distance := None, price := Some(FlatPrice),
        paymentMethod := Some(f.paymentMethod), isPaid := Some(false), description := f.description,
        photos := None, deliveryProof := None, rating := None, review := None,
        createdAt := None, deliveredAt := None))
  }

  /** A signed-in customer's validated form passes the server's insert schema
      (with the server-generated keys left out), and the parcel it creates is
      pending, unpaid, priced at the flat price and sent by that customer. */
  lemma ClientRequestCreatesPendingParcel(user: AuthUser, f: ParcelForm, now: nat, random: string,
                                          sha256Hex: string -> string, id: Id, at: nat)
    requires FormAccepted(f)
    ensures BuildCreateRequest(Some(user), f).Success?
    ensures ParseInsertParcel(BuildCreateRequest(Some(user), f).value).Some?
    ensures
      var p := NewParcel(id, at, Routes.ParcelInsertFor(ParseInsertParcel(BuildCreateRequest(Some(user), f).value).value,
                                                        now, random, sha256Hex));
      && p.status == Pending && !p.isPaid && p.price == FlatPrice && p.senderId == user.id
      && p.driverId == None && p.deliveredAt == None
  {
    AcceptedFormPaymentMethod(f);
  }

  /** The insert schema as declared requires `trackingId` and `qrHash`, which
      the page never sends: every request the page builds is rejected. */
  lemma ClientRequestRejectedAsWritten(user: Option<AuthUser>, f: ParcelForm)
    requires BuildCreateRequest(user, f).Success?
    ensures ParseInsertParcelAsWritten(BuildCreateRequest(user, f).value).None?
  {
  }
}
