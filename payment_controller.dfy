/** The payment handlers of backend/controllers/paymentController.js. The Razorpay
    client is a gateway object built once from the two environment values; the HMAC
    that signs a payment and the provider's order creation are functions the gateway
    and the handler are given, not computed here. */
module PaymentController {
  import opened Wrappers
  import opened Text
  import opened Database

  /** The key id shipped in the sample environment file, which counts as unset. */
  const PlaceholderKeyId: string := "your_razorpay_key_id_here"

  /** Whether the gateway is built: both values present, non-empty once trimmed, and
      the trimmed key id not the placeholder. */
  function IsConfigured(keyIdEnv: Option<string>, secretEnv: Option<string>): bool
  {
    && keyIdEnv.Some? && secretEnv.Some?
    && Trim(keyIdEnv.value) != "" && Trim(secretEnv.value) != ""
    && Trim(keyIdEnv.value) != PlaceholderKeyId
  }

  /** Configured iff both values are present, neither is all whitespace, and the key
      id is not the placeholder with whitespace around it. */
  lemma {:induction false} ConfiguredMeaning(keyIdEnv: Option<string>, secretEnv: Option<string>)
    ensures IsConfigured(keyIdEnv, secretEnv) <==>
      && keyIdEnv.Some? && secretEnv.Some?
      && !Blank(keyIdEnv.value) && !Blank(secretEnv.value)
      && Trim(keyIdEnv.value) != PlaceholderKeyId
  {
    if keyIdEnv.Some? { TrimEmptyIffBlank(keyIdEnv.value); }
    if secretEnv.Some? { TrimEmptyIffBlank(secretEnv.value); }
  }

  /** Trimming removes exactly the whitespace put around a string that neither starts
      nor ends with whitespace. */
  lemma {:induction false} TrimPadded(pre: string, s: string, post: string)
    requires Blank(pre) && Blank(post)
    requires s != [] && !IsJsWhitespace(s[0]) && !IsJsWhitespace(s[|s| - 1])
    ensures Trim(pre + s + post) == s
  {
    var x := pre + s + post;
    var i, j := TrimSlice(x);
    assert x[|pre|..|pre| + |s|] == s;
  }

  /** The placeholder key id is refused however it is padded with whitespace. */
  lemma PaddedPlaceholderRefused(pre: string, post: string, secretEnv: Option<string>)
    requires Blank(pre) && Blank(post)
    ensures !IsConfigured(Some(pre + PlaceholderKeyId + post), secretEnv)
  {
    TrimPadded(pre, PlaceholderKeyId, post);
  }

  /** The module-level `razorpay` client: built, or left null, once at load. The HMAC
      signs with the secret as it stands in the environment, untrimmed. */
  class Gateway {
    const keyIdEnv: Option<string>
    const secretEnv: Option<string>
    const configured: bool := IsConfigured(keyIdEnv, secretEnv)
    /** `createHmac('sha256', secret).update(message).digest('hex')`. */
    const sign: (string, string) -> string

    constructor (keyIdEnv: Option<string>, secretEnv: Option<string>, sign: (string, string) -> string)
      ensures this.keyIdEnv == keyIdEnv && this.secretEnv == secretEnv && this.sign == sign
      ensures configured == IsConfigured(keyIdEnv, secretEnv)
    {
      this.keyIdEnv := keyIdEnv;
      this.secretEnv := secretEnv;
      this.sign := sign;
    }
  }

  datatype PaymentError =
    | NotConfigured      // 503 'Payment gateway not configured...'
    | BookingNotFound    // 404 'Booking not found'
    | Unauthorized       // 403 'Unauthorized'
    | AlreadyPaid        // 400 'Payment already completed'
    | OrderFailed        // 500 'Failed to create payment order'
    | InvalidSignature   // 400 'Invalid payment signature'

  function HttpStatus(e: PaymentError): int
  {
    match e
    case NotConfigured => 503
    case BookingNotFound => 404
    case Unauthorized => 403
    case AlreadyPaid => 400
    case OrderFailed => 500
    case InvalidSignature => 400
  }

  /** The guards of createPaymentOrder, in order; `None` when all pass. Only the
      owner may pay: an admin gets no exception here. */
  function OrderGuard(configured: bool, bookings: map<BookingId, Booking>, id: BookingId, actor: Actor): (r: Option<PaymentError>)
    ensures r == Some(NotConfigured) <==> !configured
    ensures r == Some(BookingNotFound) <==> configured && id !in bookings
    ensures r == Some(Unauthorized) <==> configured && id in bookings && bookings[id].user != actor.id
    ensures r == Some(AlreadyPaid) <==>
      configured && id in bookings && bookings[id].user == actor.id && bookings[id].paymentStatus == PaymentCompleted
    ensures r.None? <==>
      configured && id in bookings && bookings[id].user == actor.id && bookings[id].paymentStatus != PaymentCompleted
  {
    if !configured then Some(NotConfigured)
    else if id !in bookings then Some(BookingNotFound)
    else if bookings[id].user != actor.id then Some(Unauthorized)
    else if bookings[id].paymentStatus == PaymentCompleted then Some(AlreadyPaid)
    else None
  }

  /** An admin who does not own a booking cannot open an order for it, although the
      same admin may read and cancel it. */
  lemma AdminIsNotExempt(bookings: map<BookingId, Booking>, id: BookingId, actor: Actor)
    requires id in bookings && actor.role == Admin && bookings[id].user != actor.id
    ensures OrderGuard(true, bookings, id, actor) == Some(Unauthorized)
    ensures CanAccess(bookings[id], actor)
  {
  }

  /** The guards never look at the booking status: a cancelled or completed booking
      that is unpaid can still be paid for. */
  lemma GuardIgnoresStatus(bookings: map<BookingId, Booking>, id: BookingId, actor: Actor, s: BookingStatus)
    requires id in bookings
    ensures OrderGuard(true, bookings[id := bookings[id].(status := s)], id, actor) == OrderGuard(true, bookings, id, actor)
  {
  }

  /** The options sent to the provider. */
  datatype OrderOptions = OrderOptions(amount: int, currency: string, receipt: string, bookingId: BookingId, userId: UserId)

  const ReceiptPrefix: string := "booking_"

  function Receipt(id: BookingId): string
  {
    ReceiptPrefix + NatToString(id)
  }

  /** The amount is the price in paise, the currency rupees, and the receipt names
      the booking. */
  function OrderOptionsFor(id: BookingId, b: Booking, actor: Actor): (o: OrderOptions)
    ensures o.amount % 100 == 0 && o.amount / 100 == b.totalPrice
    ensures o.currency == "INR"
    ensures o.receipt == Receipt(id) && o.bookingId == id && o.userId == actor.id
  {
    OrderOptions(b.totalPrice * 100, "INR", Receipt(id), id, actor.id)
  }

  /** The booking id is read back from a receipt, so two bookings never share one. */
  lemma ReceiptRoundTrip(id: BookingId)
    ensures |Receipt(id)| > |ReceiptPrefix| && Receipt(id)[..|ReceiptPrefix|] == ReceiptPrefix
    ensures ParseInt(Receipt(id)[|ReceiptPrefix|..]) == Some(id)
  {
    assert Receipt(id)[|ReceiptPrefix|..] == NatToString(id) + [];
    ParseIntDigits(NatToString(id), []);
    NatToStringRoundTrip(id);
  }

  lemma ReceiptInjective(a: BookingId, b: BookingId)
    requires Receipt(a) == Receipt(b)
    ensures a == b
  {
    ReceiptRoundTrip(a);
    ReceiptRoundTrip(b);
  }

  /** The order the provider returns. */
  datatype ProviderOrder = ProviderOrder(id: string, amount: int, currency: string)

  /** The response: the provider order's id, amount and currency, and the key id as it
      stands in the environment, untrimmed. */
  datatype OrderReply = OrderReply(orderId: string, amount: int, currency: string, keyId: Option<string>)

  /** createPaymentOrder. `createOrder` is the provider call; `None` stands for the
      call failing, which the handler reports as 500. Nothing is written. */
  method CreatePaymentOrder(db: Store, gw: Gateway, id: BookingId, actor: Actor, createOrder: OrderOptions -> Option<ProviderOrder>)
    returns (r: Result<OrderReply, PaymentError>)
    ensures r.Err? && r.error != OrderFailed <==> OrderGuard(gw.configured, db.bookings, id, actor).Some?
    ensures r.Err? && r.error != OrderFailed ==> Some(r.error) == OrderGuard(gw.configured, db.bookings, id, actor)
    ensures OrderGuard(gw.configured, db.bookings, id, actor).None? ==>
      var options := OrderOptionsFor(id, db.bookings[id], actor);
      && (r == Err(OrderFailed) <==> createOrder(options).None?)
      && (r.Ok? ==>
          var order := createOrder(options).value;
          r.value == OrderReply(order.id, order.amount, order.currency, gw.keyIdEnv))
  {
    var guard := OrderGuard(gw.configured, db.bookings, id, actor);
    if guard.Some? {
      return Err(guard.value);
    }
    var options := OrderOptionsFor(id, db.bookings[id], actor);
    var order := createOrder(options);
    if order.None? {
      return Err(OrderFailed);
    }
    return Ok(OrderReply(order.value.id, order.value.amount, order.value.currency, gw.keyIdEnv));
  }

  /** The message the signature covers. */
  function SignedBody(orderId: string, paymentId: string): string
  {
    orderId + "|" + paymentId
  }

  /** With no `|` in the order id, the signed message determines both ids. */
  lemma SignedBodyInjective(o1: string, p1: string, o2: string, p2: string)
    requires '|' !in o1 && '|' !in o2
    requires SignedBody(o1, p1) == SignedBody(o2, p2)
    ensures o1 == o2 && p1 == p2
  {
    var m := SignedBody(o1, p1);
    assert m[|o1|] == '|' && m[|o2|] == '|';
    assert o1 == m[..|o1|] && o2 == m[..|o2|];
    assert p1 == m[|o1| + 1..] == p2;
  }

  /** Without that restriction two different pairs of ids share a signed message. */
  lemma SignedBodyAmbiguous()
    ensures SignedBody("a|b", "c") == SignedBody("a", "b|c")
  {
  }

  /** What a verified payment writes: paid, with the payment id, and confirmed. */
  function MarkPaid(b: Booking, paymentId: string): (p: Booking)
    ensures p.paymentStatus == PaymentCompleted && p.paymentId == Some(paymentId) && p.status == Confirmed
    ensures p.(status := b.status, paymentStatus := b.paymentStatus, paymentId := b.paymentId) == b
  {
    b.(paymentStatus := PaymentCompleted, paymentId := Some(paymentId), status := Confirmed)
  }

  datatype VerifyRequest = VerifyRequest(orderId: string, paymentId: string, signature: string, bookingId: BookingId)

  /** A signature is accepted iff it equals the HMAC of the signed message. */
  predicate SignatureValid(gw: Gateway, req: VerifyRequest)
    requires gw.secretEnv.Some?
  {
    gw.sign(gw.secretEnv.value, SignedBody(req.orderId, req.paymentId)) == req.signature
  }

  /** verifyPayment. A valid signature confirms the booking whatever its status; when
      there is no such booking the reply still succeeds, with no booking. */
  method VerifyPayment(db: Store, gw: Gateway, req: VerifyRequest) returns (r: Result<Option<Booking>, PaymentError>)
    requires db.Valid()
    modifies db
    ensures db.Valid()
    ensures r == Err(NotConfigured) <==> !gw.configured
    ensures r == Err(InvalidSignature) <==> gw.configured && gw.secretEnv.Some? && !SignatureValid(gw, req)
    ensures r.Ok? || r == Err(NotConfigured) || r == Err(InvalidSignature)
    ensures r.Err? || req.bookingId !in old(db.bookings) ==> unchanged(db)
    ensures r.Ok? && req.bookingId in old(db.bookings) ==>
      && db.bookings == old(db.bookings)[req.bookingId := MarkPaid(old(db.bookings)[req.bookingId], req.paymentId)]
      && db.slots == old(db.slots)
      && db.nextSlotId == old(db.nextSlotId) && db.nextBookingId == old(db.nextBookingId)
    ensures r.Ok? ==> r.value == if req.bookingId in db.bookings then Some(db.bookings[req.bookingId]) else None
  {
    if !gw.configured {
      return Err(NotConfigured);
    }
    if !SignatureValid(gw, req) {
      return Err(InvalidSignature);
    }
    if req.bookingId !in db.bookings {
      return Ok(None);
    }
    db.bookings := db.bookings[req.bookingId := MarkPaid(db.bookings[req.bookingId], req.paymentId)];
    r := Ok(Some(db.bookings[req.bookingId]));
  }

  /** Paying for an active booking keeps the scheduling invariant. */
  lemma PayingActiveKeepsNoOverlap(bookings: map<BookingId, Booking>, id: BookingId, paymentId: string)
    requires NoOverlap(bookings) && id in bookings && IsActive(bookings[id].status)
    ensures NoOverlap(bookings[id := MarkPaid(bookings[id], paymentId)])
  {
    var m := bookings[id := MarkPaid(bookings[id], paymentId)];
    forall i, j | i in m && j in m && i != j ensures !Clash(m[i], m[j]) {
      assert !Clash(bookings[i], bookings[j]);
    }
  }

  /** Paying for a cancelled booking confirms it again, and can make it overlap an
      active booking of its slot. */
  lemma PayingCancelledCanBreakNoOverlap()
    ensures exists bookings: map<BookingId, Booking>, id: BookingId, paymentId: string ::
      && id in bookings && bookings[id].status == Cancelled && NoOverlap(bookings)
      && !NoOverlap(bookings[id := MarkPaid(bookings[id], paymentId)])
  {
    var a := Booking(1, 7, "MH01", "Sedan", 0, 10, 1, 50, Pending, PaymentPending, None);
    var b := a.(status := Cancelled);
    var bookings := map[0 := a, 1 := b];
    assert !Clash(a, b) && !Clash(b, a);
    assert NoOverlap(bookings);
    var m := bookings[1 := MarkPaid(bookings[1], "pay_1")];
    assert Clash(m[0], m[1]);
    assert 1 in bookings && bookings[1].status == Cancelled && NoOverlap(bookings) && !NoOverlap(m);
  }

  /** What a recorded failure writes: the payment status only. */
  function MarkFailed(bookings: map<BookingId, Booking>, id: BookingId): (m: map<BookingId, Booking>)
    ensures m.Keys == bookings.Keys
    ensures forall k :: k in bookings && k != id ==> m[k] == bookings[k]
    ensures id in bookings ==> m[id].paymentStatus == PaymentFailed && m[id].(paymentStatus := bookings[id].paymentStatus) == bookings[id]
  {
    if id in bookings then bookings[id := bookings[id].(paymentStatus := PaymentFailed)] else bookings
  }

  /** handlePaymentFailure: no gateway or owner check, and it overwrites even a
      completed payment; a missing booking changes nothing and still succeeds. */
  method HandlePaymentFailure(db: Store, id: BookingId)
    requires db.Valid()
    modifies db
    ensures db.Valid()
    ensures db.bookings == MarkFailed(old(db.bookings), id)
    ensures db.slots == old(db.slots)
    ensures db.nextSlotId == old(db.nextSlotId) && db.nextBookingId == old(db.nextBookingId)
  {
    db.bookings := MarkFailed(db.bookings, id);
  }

  /** Once verified, a booking's owner is refused a second order; a failure recorded
      afterwards, by anyone, opens it to a new order again. */
  lemma PaidThenFailedReopens(bookings: map<BookingId, Booking>, id: BookingId, paymentId: string)
    requires id in bookings
    ensures var paid := bookings[id := MarkPaid(bookings[id], paymentId)];
      && OrderGuard(true, paid, id, Actor(bookings[id].user, Customer)) == Some(AlreadyPaid)
      && OrderGuard(true, MarkFailed(paid, id), id, Actor(bookings[id].user, Customer)).None?
      && MarkFailed(paid, id)[id].status == Confirmed
  {
  }
}
