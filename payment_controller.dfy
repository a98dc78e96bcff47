/** The payment endpoints: price breakdown, gateway order creation, and verification of the
    gateway's callback, which turns an authentic payment into a paid online booking. */
module PaymentController {
  import opened Common
  import opened Tokens
  import opened BookingSchema

  /** The packages the controller itself accepts (the literal list of `createOrder` and
      `getPriceBreakdown`). */
  const Offered: seq<string> := ["499", "999"]

  /** The currency every gateway order is placed in. */
  const Currency: string := "INR"

  /** `calculateGST`: 18% of the base amount rounded to the nearest rupee, halves up as
      `Math.round` does. */
  function CalculateGst(base: nat): (gst: nat)
    ensures 100 * gst - 50 <= 18 * base < 100 * gst + 50
  {
    (18 * base + 50) / 100
  }

  /** The rounding condition has a single solution, so any "nearest rupee, halves up"
      amount is the one `CalculateGst` computes. */
  lemma GstIsUnique(base: nat, g: int)
    requires 100 * g - 50 <= 18 * base < 100 * g + 50
    ensures g == CalculateGst(base)
  {
  }

  /** `parseInt` of an offered package. */
  function BaseAmount(package: string): (base: nat)
    requires package in Offered
    ensures package == "499" ==> base == 499
    ensures package == "999" ==> base == 999
  {
    if package == "499" then 499 else 999
  }

  /** Both listed packages: 499 pays 90 GST (89.82 rounded) and 999 pays 180 (179.82). */
  lemma PackageAmounts()
    ensures CalculateGst(BaseAmount("499")) == 90 && CalculateGst(BaseAmount("999")) == 180
  {
  }

  /** The schema's enum and the controller's list name the same packages. */
  lemma OfferedIsSchemaEnum()
    ensures forall p :: p in Offered <==> p in Packages
  {
  }

  /** The three amounts a client is shown. */
  datatype Breakdown = Breakdown(baseAmount: nat, gstAmount: nat, totalAmount: nat, breakdownGst: nat)

  datatype BreakdownReply = BreakdownReply(status: int, body: Option<Breakdown>)

  /** `getPriceBreakdown`: 400 for a package that is not offered, otherwise the amounts. */
  function GetPriceBreakdown(package: string): (r: BreakdownReply)
    ensures r.status == BadRequest <==> package !in Offered
    ensures r.status == BadRequest || r.status == Ok
    ensures r.body.Some? <==> r.status == Ok
    ensures r.body.Some? ==>
      var b := r.body.value;
      && b.baseAmount == BaseAmount(package)
      && 100 * b.gstAmount - 50 <= 18 * b.baseAmount < 100 * b.gstAmount + 50
      && b.totalAmount == b.baseAmount + b.gstAmount
      && b.breakdownGst == b.gstAmount
  {
    if package !in Offered then BreakdownReply(BadRequest, None)
    else
      var base := BaseAmount(package);
      var gst := CalculateGst(base);
      BreakdownReply(Ok, Some(Breakdown(base, gst, base + gst, gst)))
  }

  /** The body of `POST /api/payments/create-order`. */
  datatype OrderForm = OrderForm(
    name: Option<string>,
    number: Option<string>,
    address: Option<string>,
    package: Option<string>)

  /** The notes attached to the gateway order. */
  datatype OrderNotes = OrderNotes(
    name: string, number: string, address: string, package: string,
    baseAmount: nat, gstAmount: nat)

  /** The options passed to the gateway; `receiptTime` is the `Date.now()` in the receipt. */
  datatype GatewayRequest = GatewayRequest(amount: nat, currency: string, receiptTime: nat, notes: OrderNotes)

  /** The order the gateway answers with. */
  datatype GatewayOrder = GatewayOrder(id: string, amount: nat, currency: string)

  datatype OrderBody = OrderBody(
    orderId: string, amount: nat, currency: string,
    baseAmount: nat, gstAmount: nat, totalAmount: nat)

  /** The reply, and the request sent to the gateway if one was sent. */
  datatype OrderReply = OrderReply(status: int, sent: Option<GatewayRequest>, body: Option<OrderBody>)

  /** The request is refused before any gateway call. */
  predicate OrderRejected(f: OrderForm)
  {
    !Present(f.name) || !Present(f.number) || !Present(f.address) || !Present(f.package)
    || f.package.value !in Offered
  }

  /** `createOrder`. `gateway` stands for the payment gateway's order creation
      (`None`: the call threw); `now` for the clock read for the receipt. */
  function CreateOrder(f: OrderForm, now: nat, gateway: GatewayRequest -> Option<GatewayOrder>): (r: OrderReply)
    ensures r.status == BadRequest <==> OrderRejected(f)
    ensures r.status == BadRequest ==> r.sent == None && r.body == None
    ensures r.status != BadRequest ==>
      var base := BaseAmount(f.package.value);
      var gst := CalculateGst(base);
      && r.sent.Some?
      && r.sent.value.amount == 100 * (base + gst)
      && r.sent.value.currency == Currency
      && r.sent.value.notes == OrderNotes(f.name.value, f.number.value, f.address.value,
                                          f.package.value, base, gst)
    ensures r.status == ServerError <==> r.sent.Some? && gateway(r.sent.value).None?
    ensures r.status == Ok <==> r.body.Some?
    ensures r.status == Ok || r.status == BadRequest || r.status == ServerError
    ensures r.body.Some? ==>
      var order := gateway(r.sent.value).value;
      && r.body.value.orderId == order.id
      && r.body.value.amount == order.amount
      && r.body.value.currency == order.currency
      && r.body.value.baseAmount == BaseAmount(f.package.value)
      && r.body.value.gstAmount == CalculateGst(r.body.value.baseAmount)
      && r.body.value.totalAmount == r.body.value.baseAmount + r.body.value.gstAmount
  {
    if OrderRejected(f) then OrderReply(BadRequest, None, None)
    else
      var base := BaseAmount(f.package.value);
      var gst := CalculateGst(base);
      var total := base + gst;
      var request := GatewayRequest(total * 100, Currency, now,
        OrderNotes(f.name.value, f.number.value, f.address.value, f.package.value, base, gst));
      match gateway(request)
      case None => OrderReply(ServerError, Some(request), None)
      case Some(order) =>
        OrderReply(Ok, Some(request),
          Some(OrderBody(order.id, order.amount, order.currency, base, gst, total)))
  }

  /** The gateway is charged, in paise, exactly the total the breakdown shows for the package. */
  lemma OrderChargesBreakdownTotal(f: OrderForm, now: nat, gateway: GatewayRequest -> Option<GatewayOrder>)
    requires !OrderRejected(f)
    ensures CreateOrder(f, now, gateway).sent.value.amount
         == 100 * GetPriceBreakdown(f.package.value).body.value.totalAmount
  {
  }

  /** The body of `POST /api/payments/verify`. */
  datatype Callback = Callback(
    orderId: Option<string>,
    paymentId: Option<string>,
    signature: Option<string>,
    name: Option<string>,
    number: Option<string>,
    address: Option<string>,
    package: Option<string>)

  /** How the callback fares at the authentication gate. */
  datatype Gate = MissingData | BadSignature | Authentic

  /** The message the gateway signs: order id, a bar, payment id. */
  function SignedMessage(orderId: string, paymentId: string): string
  {
    orderId + "|" + paymentId
  }

  /** Presence of the three gateway fields, then the signature check. `hmac` is HMAC-SHA256
      with its hex digest, keyed by `secret`. */
  function CheckCallback(c: Callback, secret: string, hmac: (string, string) -> string): (g: Gate)
    ensures g == MissingData <==>
      !Present(c.orderId) || !Present(c.paymentId) || !Present(c.signature)
    ensures g == Authentic <==>
      && Present(c.orderId) && Present(c.paymentId) && Present(c.signature)
      && hmac(secret, SignedMessage(c.orderId.value, c.paymentId.value)) == c.signature.value
  {
    if !Present(c.orderId) || !Present(c.paymentId) || !Present(c.signature) then MissingData
    else if hmac(secret, SignedMessage(c.orderId.value, c.paymentId.value)) != c.signature.value
    then BadSignature
    else Authentic
  }

  /** The booking fields the callback must carry for schema validation to accept the
      document; the controller itself checks none of them. */
  predicate DetailsValid(c: Callback)
  {
    Present(c.name) && Present(c.number) && Present(c.address) && Text(c.package) in Packages
  }

  /** The document `verifyPayment` hands to `Booking.create`. The amounts are those of the
      package; a package outside the enum gives a document validation rejects whatever its
      amounts, so the schema defaults stand in for them. */
  function OnlineDraft(c: Callback, token: string): (b: Booking)
    requires Present(c.orderId) && Present(c.paymentId)
    ensures b.paymentMode == "online" && b.isPaid
    ensures b.razorpayOrderId == c.orderId && b.razorpayPaymentId == c.paymentId
    ensures b.token == token && b.package == Text(c.package)
    ensures b.name == Text(c.name) && b.number == Text(c.number) && b.address == Text(c.address)
    ensures b.screenshotUrl == None && b.screenshotPublicId == None
    ensures ValidBooking(b) <==> token != "" && DetailsValid(c)
    ensures b.package in Offered ==>
      && 100 * b.gstAmount - 50 <= 18 * BaseAmount(b.package) < 100 * b.gstAmount + 50
      && b.totalAmountPaid == Some(BaseAmount(b.package) + b.gstAmount)
  {
    var package := Text(c.package);
    var draft := WithDefaults(token, Text(c.name), Text(c.number), Text(c.address), package, "online")
      .(isPaid := true, razorpayOrderId := c.orderId, razorpayPaymentId := c.paymentId);
    if package in Offered then
      var base := BaseAmount(package);
      var gst := CalculateGst(base);
      draft.(gstAmount := gst, totalAmountPaid := Some(base + gst))
    else draft
  }

  /** `verifyPayment`. `secret` is the gateway key secret, `draws` feed the token generator. */
  method VerifyPayment(store: BookingCollection, c: Callback, secret: string,
                       hmac: (string, string) -> string, draws: seq<seq<Roll>>, now: nat)
    returns (status: int, booking: Option<Booking>)
    requires store.Valid()
    requires forall k :: 0 <= k < |draws| ==> IsDraw(draws[k])
    requires exists k :: 0 <= k < |draws| && !store.TokenTaken(Spell(draws[k]))
    modifies store
    ensures store.Valid()
    ensures status == BadRequest <==> CheckCallback(c, secret, hmac) != Authentic
    ensures status == ServerError <==> CheckCallback(c, secret, hmac) == Authentic && !DetailsValid(c)
    ensures status == Created <==> booking.Some?
    ensures status == BadRequest || status == ServerError || status == Created
    ensures booking.None? ==> store.docs == old(store.docs) && store.nextId == old(store.nextId)
    ensures booking.Some? ==>
      && CheckCallback(c, secret, hmac) == Authentic
      && IsToken(booking.value.token)
      && booking.value.token !in old(TokensOf(store.docs))
      && booking.value == OnlineDraft(c, booking.value.token)
                          .(id := old(store.nextId), createdAt := now, updatedAt := now)
      && store.docs == old(store.docs) + [booking.value]
  {
    if CheckCallback(c, secret, hmac) != Authentic {
      return BadRequest, None;
    }
    var token, _ := store.UniqueToken(draws);
    booking := store.Create(OnlineDraft(c, token), now);
    status := if booking.Some? then Created else ServerError;
  }

  /** Nothing deduplicates on the gateway ids: the same authentic callback submitted twice
      books twice, under two different tokens, both paid, on top of whatever the store holds.
      The second run draws from a source that offers two different tokens free in the old
      store, so one of them is still free after the first booking. */
  method ReplayedCallbackBooksTwice(store: BookingCollection, c: Callback, secret: string,
                                    hmac: (string, string) -> string,
                                    draws1: seq<seq<Roll>>, draws2: seq<seq<Roll>>, now: nat)
    returns (first: Booking, second: Booking)
    requires store.Valid()
    requires CheckCallback(c, secret, hmac) == Authentic && DetailsValid(c)
    requires forall k :: 0 <= k < |draws1| ==> IsDraw(draws1[k])
    requires exists k :: 0 <= k < |draws1| && !store.TokenTaken(Spell(draws1[k]))
    requires forall k :: 0 <= k < |draws2| ==> IsDraw(draws2[k])
    requires exists k, l ::
      && 0 <= k < |draws2| && 0 <= l < |draws2|
      && Spell(draws2[k]) != Spell(draws2[l])
      && !store.TokenTaken(Spell(draws2[k])) && !store.TokenTaken(Spell(draws2[l]))
    modifies store
    ensures store.Valid()
    ensures store.docs == old(store.docs) + [first, second]
    ensures first.token != second.token
    ensures first.isPaid && second.isPaid
    ensures first.razorpayOrderId == second.razorpayOrderId == c.orderId
    ensures first.razorpayPaymentId == second.razorpayPaymentId == c.paymentId
  {
    var status1, b1 := VerifyPayment(store, c, secret, hmac, draws1, now);
    ghost var k, l :|
      && 0 <= k < |draws2| && 0 <= l < |draws2|
      && Spell(draws2[k]) != Spell(draws2[l])
      && !old(store.TokenTaken(Spell(draws2[k]))) && !old(store.TokenTaken(Spell(draws2[l])));
    assert TokensOf(store.docs) == old(TokensOf(store.docs)) + {b1.value.token};
    assert !store.TokenTaken(Spell(draws2[k])) || !store.TokenTaken(Spell(draws2[l]));
    var status2, b2 := VerifyPayment(store, c, secret, hmac, draws2, now);
    first, second := b1.value, b2.value;
  }
}
