/** What internal/shipmentapi/server.go builds before it calls the store: the only producer of outbox rows. */
module ShipmentApi {
  import opened Wrappers
  import opened Domain
  import opened Json
  import opened Events
  import opened Database
  import Pricing

  /**
   * One CreateShipment call: the parcel, the pricing service's answer, the correlation ID, the clock and
   * the two fresh identifiers.
   */
  datatype CreateCall = CreateCall(
    weightGrams: int32, quoteStatus: int, quoteBody: Text, correlationId: string, now: int,
    shipmentId: ShipmentId, eventId: EventId)

  datatype ApiError = InvalidWeight | PricingError(error: Pricing.QuoteError) | EncodeFailed

  /** Invalid parcels never reach the pricing service. */
  function QuoteFor(c: CreateCall): Result<Money, ApiError> {
    if !ValidWeight(c.weightGrams) then Err(InvalidWeight)
    else match Pricing.DecodeQuote(c.quoteStatus, c.quoteBody)
      case Err(e) => Err(PricingError(e))
      case Ok(m) => Ok(m)
  }

  function NewOutboxEvent(eventId: EventId, shipment: Shipment, correlationId: string): Option<OutboxEvent> {
    var evt := NewShipmentCreated(eventId, shipment, correlationId);
    match Encode(evt)
    case None => None
    case Some(payload) => Some(OutboxEvent(evt.eventId, shipment.id, evt.eventType, IsJson(payload)))
  }

  datatype Prepared = Prepared(shipment: Shipment, event: OutboxEvent)

  /** Everything up to the store call. */
  function Prepare(c: CreateCall): Result<Prepared, ApiError> {
    match QuoteFor(c)
    case Err(e) => Err(e)
    case Ok(price) =>
      var shipment := Shipment(c.shipmentId, c.weightGrams, price, c.now);
      match NewOutboxEvent(c.eventId, shipment, c.correlationId)
      case None => Err(EncodeFailed)
      case Some(event) => Ok(Prepared(shipment, event))
  }

  /** The call's event, as the consumer will have to see it. */
  function EventOf(c: CreateCall, price: Money): ShipmentCreated {
    NewShipmentCreated(c.eventId, Shipment(c.shipmentId, c.weightGrams, price, c.now), c.correlationId)
  }

  // ----- Which calls are accepted -----

  /** The body spells out an amount that is not negative and three capital letters. */
  ghost predicate SpellsMoney(body: Text) {
    exists m :: Pricing.SpellsQuote(body, m) && m.amountCents >= 0
                && |m.currency| == 3 && forall i :: 0 <= i < 3 ==> 'A' <= m.currency[i] <= 'Z'
  }

  /** A parcel of 1 gram to 30 kilograms, priced by a 200 answer, at an instant that can be written. */
  ghost predicate Acceptable(c: CreateCall) {
    1 <= c.weightGrams <= 30000 && c.quoteStatus == 200 && SpellsMoney(c.quoteBody) && c.now >= 0
  }

  lemma AnswerDecides(status: int, body: Text)
    ensures Pricing.DecodeQuote(status, body).Ok? <==> status == 200 && SpellsMoney(body)
    ensures Pricing.DecodeQuote(status, body) == Err(Pricing.Rejected) <==> status == 400 || status == 422
    ensures Pricing.DecodeQuote(status, body) == Err(Pricing.Unavailable) <==>
            status != 400 && status != 422 && !(status == 200 && SpellsMoney(body))
  {
    if Pricing.DecodeQuote(status, body).Ok? {
      var m := Pricing.DecodeQuote(status, body).value;
      Pricing.QuoteAcceptedExactly(status, body, m);
      assert Pricing.SpellsQuote(body, m);
    }
    if status == 200 && SpellsMoney(body) {
      var m :| Pricing.SpellsQuote(body, m) && m.amountCents >= 0
               && |m.currency| == 3 && forall i :: 0 <= i < 3 ==> 'A' <= m.currency[i] <= 'Z';
      Pricing.QuoteAcceptedExactly(status, body, m);
    }
  }

  /** Which calls are accepted, and with which error each other one is refused. */
  lemma AcceptedExactly(c: CreateCall)
    ensures Prepare(c).Ok? <==> Acceptable(c)
    ensures Prepare(c) == Err(InvalidWeight) <==> !(1 <= c.weightGrams <= 30000)
    ensures Prepare(c) == Err(PricingError(Pricing.Rejected)) <==>
            1 <= c.weightGrams <= 30000 && (c.quoteStatus == 400 || c.quoteStatus == 422)
    ensures Prepare(c) == Err(PricingError(Pricing.Unavailable)) <==>
            && 1 <= c.weightGrams <= 30000 && c.quoteStatus != 400 && c.quoteStatus != 422
            && !(c.quoteStatus == 200 && SpellsMoney(c.quoteBody))
    ensures Prepare(c) == Err(EncodeFailed) <==>
            1 <= c.weightGrams <= 30000 && c.quoteStatus == 200 && SpellsMoney(c.quoteBody) && c.now < 0
  {
    AnswerDecides(c.quoteStatus, c.quoteBody);
    hide Pricing.DecodeQuote, SpellsMoney;
  }

  /** What Prepare hands over is valid and carries exactly the call's own data. */
  lemma PreparedIsValid(c: CreateCall)
    requires Prepare(c).Ok?
    ensures var p := Prepare(c).value;
            && ValidWeight(p.shipment.weightGrams) && ValidMoney(p.shipment.price)
            && p.shipment == Shipment(c.shipmentId, c.weightGrams, p.shipment.price, c.now)
            && Pricing.DecodeQuote(c.quoteStatus, c.quoteBody) == Ok(p.shipment.price)
            && p.event.eventId == c.eventId && p.event.shipmentId == c.shipmentId
            && p.event.eventType == TYPE_SHIPMENT_CREATED && p.event.payload.IsJson?
            && Encode(EventOf(c, p.shipment.price)) == Some(p.event.payload.value)
  {
    Pricing.QuoteAcceptedExactly(c.quoteStatus, c.quoteBody, Prepare(c).value.shipment.price);
  }

  /**
   * The system never poisons itself: for every parcel and every answer of the pricing service that get this
   * far, the stored payload decodes to the very event that was encoded, price and identifiers included.
   */
  lemma StoredPayloadDecodes(c: CreateCall)
    requires Prepare(c).Ok? && c.eventId != "" && c.shipmentId != ""
    ensures var p := Prepare(c).value;
            && Decode(p.event.payload) == Ok(EventOf(c, p.shipment.price))
            && EventOf(c, p.shipment.price) ==
               ShipmentCreated(c.eventId, "shipment.created", 1, c.shipmentId, c.now, c.correlationId,
                               ShipmentCreatedData(c.weightGrams, p.shipment.price.amountCents, p.shipment.price.currency))
            && RequestOf(EventOf(c, p.shipment.price)) ==
               DispatchRequest(c.eventId, c.shipmentId, p.shipment.price)
  {
    PreparedIsValid(c);
    var p := Prepare(c).value;
    EncodeDecode(EventOf(c, p.shipment.price));
  }

  /** With the pricing service's own answer the stored price is the published tariff. */
  lemma PreparedPriceIsTariff(c: CreateCall)
    requires Prepare(c).Ok?
    requires c.quoteStatus == Pricing.STATUS_OK
    requires Pricing.Quote(c.weightGrams).Ok? ==>
               c.quoteBody == Pricing.QuoteResponse(Pricing.Quote(c.weightGrams).value)
    ensures Ok(Prepare(c).value.shipment.price) == Pricing.Quote(c.weightGrams)
  {
    PreparedIsValid(c);
    Pricing.QuotePrice(c.weightGrams);
    Pricing.QuoteSurvivesTheWire(c.weightGrams);
  }
}
