/** The pricing rules (pricing/app/pricing.py) and the client's reading of a quote (internal/pricing/client.go). */
module Pricing {
  import opened Wrappers
  import opened Domain
  import opened Json

  const BASE_CENTS := 500
  const PER_STARTED_KG_CENTS := 100
  const CURRENCY := "USD"

  /** Floor division of the negated weight, negated. */
  function StartedKilograms(weightGrams: int): int {
    -((-weightGrams) / 1000)
  }

  datatype PricerError = InvalidWeight

  function Quote(weightGrams: int): Result<Money, PricerError> {
    if !ValidWeight(weightGrams) then Err(InvalidWeight)
    else Ok(Money(BASE_CENTS + PER_STARTED_KG_CENTS * StartedKilograms(weightGrams), CURRENCY))
  }

  /** The price every accepted weight has: 500 cents and 100 more for each kilogram begun. */
  lemma QuotePrice(weightGrams: int)
    ensures Quote(weightGrams).Ok? <==> ValidWeight(weightGrams)
    ensures Quote(weightGrams).Ok? ==>
              exists k :: 1 <= k <= 30 && 1000 * (k - 1) < weightGrams <= 1000 * k
                          && Quote(weightGrams) == Ok(Money(500 + 100 * k, "USD"))
  {
    if ValidWeight(weightGrams) {
      var k := StartedKilograms(weightGrams);
      assert 1000 * (k - 1) < weightGrams <= 1000 * k;
    }
  }

  datatype QuoteError = Rejected | Unavailable

  const STATUS_OK := 200
  const STATUS_BAD_REQUEST := 400
  const STATUS_UNPROCESSABLE := 422

  /** What the client makes of the pricing service's answer. */
  function DecodeQuote(status: int, body: Text): Result<Money, QuoteError> {
    if status == STATUS_BAD_REQUEST || status == STATUS_UNPROCESSABLE then Err(Rejected)
    else if status != STATUS_OK then Err(Unavailable)
    else match body
      case IsJson(Null) => Err(Unavailable)
      case IsJson(Object(o)) =>
        (match (Int64Field(o, "amount_cents"), StringField(o, "currency"))
         case (Ok(Some(a)), Ok(Some(c))) => if ValidMoney(Money(a, c)) then Ok(Money(a, c)) else Err(Unavailable)
         case _ => Err(Unavailable))
      case _ => Err(Unavailable)
  }

  /** The body is a JSON object that spells the money out; other keys are ignored. */
  predicate SpellsQuote(body: Text, m: Money) {
    && body.IsJson? && body.value.Object?
    && HasNumber(body.value.fields, "amount_cents", m.amountCents)
    && HasString(body.value.fields, "currency", m.currency)
  }

  /**
   * Money enters the system exactly through a 200 answer that spells it out, with an amount that is not negative
   * and a currency code; and it enters as it is spelled.
   */
  lemma QuoteAcceptedExactly(status: int, body: Text, m: Money)
    ensures DecodeQuote(status, body) == Ok(m) <==> status == STATUS_OK && SpellsQuote(body, m) && ValidMoney(m)
  {
    if body.IsJson? && body.value.Object? {
      var o := body.value.fields;
      assert Int64Field(o, "amount_cents") == Ok(Some(m.amountCents)) <==> HasNumber(o, "amount_cents", m.amountCents);
      assert StringField(o, "currency") == Ok(Some(m.currency)) <==> HasString(o, "currency", m.currency);
    }
  }

  /** The pricing service's 200 response to an accepted weight. */
  function QuoteResponse(m: Money): Text {
    IsJson(Object(map["amount_cents" := Number(m.amountCents), "currency" := String(m.currency)]))
  }

  /** The two services agree: the client reads back exactly the price the pricer computed. */
  lemma QuoteSurvivesTheWire(weightGrams: int)
    requires ValidWeight(weightGrams)
    ensures DecodeQuote(STATUS_OK, QuoteResponse(Quote(weightGrams).value)) == Ok(Quote(weightGrams).value)
  {
    QuotePrice(weightGrams);
    var m := Quote(weightGrams).value;
    assert IsCurrencyCode(m.currency);
    var o := QuoteResponse(m).value.fields;
    assert Int64Field(o, "amount_cents") == Ok(Some(m.amountCents));
    assert StringField(o, "currency") == Ok(Some(m.currency));
  }
}
